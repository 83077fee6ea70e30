/** However many handlers race for one key, one of them accepts it. */
module ExactlyOnce {
  import opened Wrappers
  import opened Ledger
  import opened Storage
  import opened Lifecycle

  /** The handler has inserted the row and not yet handed the task over. */
  predicate Owns(h: Handler) {
    h.Counting? || h.Holding? || h.Sending?
  }

  /** The counts of inserts and enqueues before the runs looked at here. */
  datatype Base = Base(inserts: nat, enqueues: nat)

  ghost predicate NoOwner(s: Node, id: string) {
    forall h :: h in s.handlers && s.handlers[h].task.id == id ==> !Owns(s.handlers[h])
  }

  ghost predicate OneOwner(s: Node, id: string) {
    forall g, h :: g in s.handlers && h in s.handlers && g != h && s.handlers[g].task.id == id && s.handlers[h].task.id == id ==>
      !(Owns(s.handlers[g]) && Owns(s.handlers[h]))
  }

  /** What a handler knows about the row, once it has met it. */
  ghost predicate Informed(s: Node, h: Handler) {
    var id := h.task.id;
    && (h.Rechecking? ==> id in s.tables.tasks)
    && (h.Done? && h.reply == Duplicate ==> id in s.tables.tasks && SamePayload(s.tables.tasks[id].task, h.task))
    && (h.Done? && h.reply == Refused ==> id in s.tables.tasks && !SamePayload(s.tables.tasks[id].task, h.task))
    && (Owns(h) ==> id in s.tables.tasks && s.tables.tasks[id].task == h.task)
  }

  ghost predicate Counted(s: Node, id: string, base: Base) {
    if id in s.tables.tasks then
      && s.past.inserts[id] == base.inserts + 1
      && s.past.enqueues[id] <= base.enqueues + 1
      && (s.past.enqueues[id] == base.enqueues + 1 ==> NoOwner(s, id))
      && OneOwner(s, id)
    else
      s.past.inserts[id] == base.inserts && s.past.enqueues[id] <= base.enqueues && NoOwner(s, id)
  }

  ghost predicate Once(s: Node, id: string, base: Base) {
    && Counted(s, id, base)
    && forall h :: h in s.handlers && s.handlers[h].task.id == id ==> Informed(s, s.handlers[h])
  }

  /** The step does not prune the row of `id`. */
  ghost predicate Spares(s: Node, step: Step, id: string) {
    step.Prune? ==> id !in PrunedIds(s.tables, step.cutoff)
  }

  /** What one handler step does to its own handler, the row and the counts of `id`. */
  lemma HandleCounts(s: Node, h: nat, now: int, id: string)
    requires h in s.handlers && s.handlers[h].task.id == id && Informed(s, s.handlers[h])
    ensures var before, next := s.handlers[h], AfterHandle(s, h, now);
      && next.handlers == s.handlers[h := next.handlers[h]]
      && next.handlers[h].task == before.task
      && Informed(next, next.handlers[h])
      && next.past.inserts[id] == s.past.inserts[id] + (if before.Saving? && id !in s.tables.tasks then 1 else 0)
      && next.past.enqueues[id] == s.past.enqueues[id] + (if before.Sending? && s.open then 1 else 0)
      && (Owns(next.handlers[h]) <==> (before.Saving? && id !in s.tables.tasks) || (Owns(before) && !(before.Sending?)))
      && (id in next.tables.tasks <==> id in s.tables.tasks || before.Saving?)
      && (id in s.tables.tasks ==> next.tables == s.tables)
  {
    hide AfterHold, AfterRelease, SamePayload;
  }

  lemma HandleKeepsOnce(s: Node, h: nat, now: int, id: string, base: Base)
    requires Once(s, id, base) && h in s.handlers && s.handlers[h].task.id == id
    ensures Once(AfterHandle(s, h, now), id, base)
  {
    HandleCounts(s, h, now, id);
    hide AfterHandle, SamePayload;
    var next := AfterHandle(s, h, now);
    forall g | g in next.handlers && g != h && next.handlers[g].task.id == id ensures Informed(next, next.handlers[g]) {
      assert next.handlers[g] == s.handlers[g];
      assert Informed(s, s.handlers[g]);
    }
  }

  /** A step of a handler for another key. */
  lemma OtherHandle(s: Node, h: nat, now: int, id: string)
    requires h in s.handlers && s.handlers[h].task.id != id
    ensures var next := AfterHandle(s, h, now);
      && next.handlers == s.handlers[h := next.handlers[h]]
      && next.handlers[h].task == s.handlers[h].task
      && next.past.inserts[id] == s.past.inserts[id]
      && next.past.enqueues[id] == s.past.enqueues[id]
      && (id in next.tables.tasks <==> id in s.tables.tasks)
      && (id in s.tables.tasks ==> next.tables.tasks[id] == s.tables.tasks[id])
  {
    hide AfterHold, AfterRelease, SamePayload;
  }

  lemma OtherHandleKeepsOnce(s: Node, h: nat, now: int, id: string, base: Base)
    requires Once(s, id, base) && h in s.handlers && s.handlers[h].task.id != id
    ensures Once(AfterHandle(s, h, now), id, base)
  {
    OtherHandle(s, h, now, id);
    hide AfterHandle, SamePayload, Owns;
  }

  ghost predicate RowKept(s: Node, next: Node, id: string) {
    && (id in next.tables.tasks <==> id in s.tables.tasks)
    && (id in s.tables.tasks ==> next.tables.tasks[id].task == s.tables.tasks[id].task)
  }

  lemma StatusKeepsRow(s: Node, next: Node, status: Status, other: string, id: string)
    requires next.tables.tasks == s.tables.tasks || next.tables.tasks == UpdateStatus(s.tables, other, status).tasks
    ensures RowKept(s, next, id)
  {
  }

  lemma WorkTasks(s: Node, outcome: Outcome, sendOk: bool, now: int)
    requires s.worker.Busy?
    ensures var next := AfterWork(s, outcome, sendOk, now);
      next.tables.tasks == s.tables.tasks
      || next.tables.tasks == UpdateStatus(s.tables, s.worker.task.id, StatusOf(s.worker.payload)).tasks
  {
    hide BuildWire, AfterRelease, Ledger.AfterStart, UpdateStatus;
  }

  lemma WorkCounts(s: Node, outcome: Outcome, sendOk: bool, now: int)
    requires s.worker.Busy?
    ensures var next := AfterWork(s, outcome, sendOk, now);
      && next.handlers == s.handlers
      && next.past.inserts == s.past.inserts && next.past.enqueues == s.past.enqueues
  {
    hide BuildWire, AfterRelease, Ledger.AfterStart, UpdateStatus, UpsertResult, DeleteResult;
  }

  lemma WorkKeepsRow(s: Node, outcome: Outcome, sendOk: bool, now: int, id: string)
    requires s.worker.Busy?
    ensures var next := AfterWork(s, outcome, sendOk, now);
      && RowKept(s, next, id) && next.handlers == s.handlers
      && next.past.inserts == s.past.inserts && next.past.enqueues == s.past.enqueues
  {
    WorkTasks(s, outcome, sendOk, now);
    WorkCounts(s, outcome, sendOk, now);
    hide AfterWork, UpdateStatus, RowKept;
    StatusKeepsRow(s, AfterWork(s, outcome, sendOk, now), StatusOf(s.worker.payload), s.worker.task.id, id);
  }

  lemma RetryKeepsRow(s: Node, sendOk: bool, id: string)
    requires s.retry.Resending? ==> s.retry.entries != []
    ensures var next := AfterRetry(s, sendOk);
      && RowKept(s, next, id) && next.handlers == s.handlers
      && next.past.inserts == s.past.inserts && next.past.enqueues == s.past.enqueues
  {
  }

  /** Every step that is not a handler's leaves the row and the counts alone. */
  lemma QuietStep(s: Node, step: Step, id: string)
    requires Enabled(s, step) && Spares(s, step, id) && !step.Handle?
    ensures var next := Apply(s, step);
      && RowKept(s, next, id)
      && next.past.inserts == s.past.inserts && next.past.enqueues == s.past.enqueues
  {
    hide AfterWork, AfterRetry, RowKept;
    match step
    case Work(outcome, sendOk, now) => WorkKeepsRow(s, outcome, sendOk, now, id);
    case Resend(sendOk) => RetryKeepsRow(s, sendOk, id);
    case _ => OtherStepKeepsRow(s, step, id);
  }

  lemma OtherStepKeepsRow(s: Node, step: Step, id: string)
    requires Enabled(s, step) && Spares(s, step, id) && !step.Handle? && !step.Work? && !step.Resend?
    ensures RowKept(s, Apply(s, step), id)
    ensures Apply(s, step).past.inserts == s.past.inserts && Apply(s, step).past.enqueues == s.past.enqueues
  {
    hide AfterHold;
  }

  lemma QuietStepHandlers(s: Node, step: Step)
    requires Enabled(s, step) && !step.Handle?
    ensures forall h :: h in Apply(s, step).handlers ==>
              (h in s.handlers && Apply(s, step).handlers[h] == s.handlers[h]) || Apply(s, step).handlers[h].Looking?
  {
    hide AfterWork, AfterRetry, ListsPending, ListsResults, PruneTasks, AfterHold;
    match step
    case Work(outcome, sendOk, now) => WorkKeepsRow(s, outcome, sendOk, now, "");
    case Resend(sendOk) => RetryKeepsRow(s, sendOk, "");
    case _ =>
  }

  lemma OnceFromRow(s: Node, next: Node, id: string, base: Base)
    requires Once(s, id, base) && RowKept(s, next, id)
    requires next.past.inserts == s.past.inserts && next.past.enqueues == s.past.enqueues
    requires forall h :: h in next.handlers ==> (h in s.handlers && next.handlers[h] == s.handlers[h]) || next.handlers[h].Looking?
    ensures Once(next, id, base)
  {
    hide SamePayload;
  }

  lemma QuietStepKeepsOnce(s: Node, step: Step, id: string, base: Base)
    requires Once(s, id, base) && Enabled(s, step) && Spares(s, step, id) && !step.Handle?
    ensures Once(Apply(s, step), id, base)
  {
    hide Once, Apply, Enabled, RowKept;
    QuietStep(s, step, id);
    QuietStepHandlers(s, step);
    OnceFromRow(s, Apply(s, step), id, base);
  }

  lemma StepKeepsOnce(s: Node, step: Step, id: string, base: Base)
    requires Once(s, id, base) && Enabled(s, step) && Spares(s, step, id)
    ensures Once(Apply(s, step), id, base)
  {
    hide Once, AfterHandle;
    match step
    case Handle(h, now) =>
      if s.handlers[h].task.id == id {
        HandleKeepsOnce(s, h, now, id, base);
      } else {
        OtherHandleKeepsOnce(s, h, now, id, base);
      }
    case _ => QuietStepKeepsOnce(s, step, id, base);
  }

  ghost predicate SparesAll(s: Node, steps: seq<Step>, id: string)
    decreases |steps|
  {
    steps == [] || (Spares(s, steps[0], id) && SparesAll(Apply(s, steps[0]), steps[1..], id))
  }

  lemma {:induction false} RunKeepsOnce(s: Node, steps: seq<Step>, id: string, base: Base)
    requires Once(s, id, base) && Run(s, steps) && SparesAll(s, steps, id)
    ensures Once(RunTo(s, steps), id, base)
    decreases |steps|
  {
    if steps != [] {
      StepKeepsOnce(s, steps[0], id, base);
      RunKeepsOnce(Apply(s, steps[0]), steps[1..], id, base);
    }
  }

  /** No row and no handler for `id`. */
  ghost predicate Untouched(s: Node, id: string) {
    id !in s.tables.tasks && forall h :: h in s.handlers ==> s.handlers[h].task.id != id
  }

  ghost function HistoryBase(s: Node, id: string): Base {
    Base(s.past.inserts[id], s.past.enqueues[id])
  }

  /**
   Any number of handlers, the worker, crashes and restarts interleave; as long
   as its row is not pruned, `id` is inserted once and handed to the queue once.
   Handlers that lost say Duplicate to the payload of the row and refuse others.
   */
  lemma ExactlyOneHandlerAccepts(s: Node, steps: seq<Step>, id: string)
    requires Untouched(s, id) && Run(s, steps) && SparesAll(s, steps, id)
    ensures var end := RunTo(s, steps);
      && end.past.inserts[id] == s.past.inserts[id] + (if id in end.tables.tasks then 1 else 0)
      && end.past.enqueues[id] <= s.past.enqueues[id] + 1
      && (forall h :: h in end.handlers && end.handlers[h].task.id == id && end.handlers[h].Done? ==>
            && (end.handlers[h].reply == Duplicate ==> id in end.tables.tasks && SameWork(end.tables.tasks[id].task, end.handlers[h].task))
            && (end.handlers[h].reply == Refused ==> id in end.tables.tasks && !SameWork(end.tables.tasks[id].task, end.handlers[h].task)))
  {
    var base := HistoryBase(s, id);
    RunKeepsOnce(s, steps, id, base);
    var end := RunTo(s, steps);
    hide Run, RunTo, SamePayload, SameWork;
    forall h | h in end.handlers && end.handlers[h].task.id == id ensures Informed(end, end.handlers[h]) {
    }
    forall h | h in end.handlers && end.handlers[h].task.id == id && id in end.tables.tasks
      ensures SamePayload(end.tables.tasks[id].task, end.handlers[h].task) <==> SameWork(end.tables.tasks[id].task, end.handlers[h].task)
    {
      PayloadIsWork(end.tables.tasks[id].task, end.handlers[h].task);
    }
  }

  /** The tasks differ at most in what each dispatch brings anew: the budget and the accept time. */
  predicate SameWork(existing: Task, incoming: Task) {
    existing.(budget := incoming.budget, acceptedAtMs := incoming.acceptedAtMs) == incoming
  }

  lemma PayloadIsWork(existing: Task, incoming: Task)
    ensures SamePayload(existing, incoming) <==> SameWork(existing, incoming)
  {
  }

  /**
   A handler that finds the row, at its first look or after a refused insert,
   answers Duplicate exactly to the same work, and changes nothing else.
   */
  lemma RepeatedDispatchChangesNothing(s: Node, h: nat, now: int)
    requires h in s.handlers && s.handlers[h].task.id in s.tables.tasks
    requires s.handlers[h].Looking? || s.handlers[h].Rechecking?
    ensures var task := s.handlers[h].task;
            var existing := s.tables.tasks[task.id].task;
            AfterHandle(s, h, now) == s.(handlers := s.handlers[h := Done(task, if SameWork(existing, task) then Duplicate else Refused)])
  {
    PayloadIsWork(s.tables.tasks[s.handlers[h].task.id].task, s.handlers[h].task);
  }

  /** A whole repeated dispatch, undisturbed, leaves nothing behind but its answer. */
  lemma RedispatchIsIdempotent(s: Node, h: nat, task: Task, now: int)
    requires s.mode.Up? && h !in s.handlers && task.id in s.tables.tasks
    ensures Run(s, [Dispatch(h, task), Handle(h, now)])
    ensures RunTo(s, [Dispatch(h, task), Handle(h, now)]) ==
              s.(handlers := s.handlers[h := Done(task, if SameWork(s.tables.tasks[task.id].task, task) then Duplicate else Refused)])
  {
    var steps := [Dispatch(h, task), Handle(h, now)];
    var started := Apply(s, steps[0]);
    RepeatedDispatchChangesNothing(started, h, now);
    assert steps[1..] == [Handle(h, now)] && steps[1..][1..] == [];
    var end := Apply(started, Handle(h, now));
    assert Run(end, []) && RunTo(end, []) == end;
    assert Run(started, steps[1..]) && RunTo(started, steps[1..]) == end;
    assert end.handlers == s.handlers[h := end.handlers[h]];
  }
}

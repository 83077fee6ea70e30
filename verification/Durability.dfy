/** No accepted task is lost, except by a crash in one window of the worker. */
module Durability {
  import opened Wrappers
  import opened Storage
  import opened Ledger
  import opened Lifecycle

  /** A restart can still find the task, or its result has gone out. */
  ghost predicate Recoverable(s: Node, id: string) {
    || (id in s.tables.tasks && s.tables.tasks[id].status == Pending)
    || id in s.tables.results
    || id in s.past.sent
  }

  ghost predicate Safe(s: Node, id: string) {
    Recoverable(s, id) || id in Window(s) || id in s.past.exposed
  }

  ghost predicate WorkerHonest(s: Node) {
    s.worker.Busy? ==>
      && (s.worker.phase in {Remark, Deliver} ==> s.worker.task.id in s.tables.results || s.worker.task.id in s.past.sent)
      && (s.worker.phase == Delete ==> s.worker.task.id in s.past.sent)
      && (s.worker.phase in {Mark, Store} ==> BuildWire(s.worker.task.id, s.worker.payload).Ok?)
  }

  ghost predicate Durable(s: Node) {
    && (forall id :: id in s.past.accepted ==> Safe(s, id))
    && WorkerHonest(s)
    && (s.retry.Clearing? ==> s.retry.entry.id in s.past.sent)
  }

  /** The payloads the worker builds always make a wire body. */
  lemma WorkerPayloadBuilds(id: string, o: Outcome)
    ensures BuildWire(id, PayloadOf(o)).Ok?
    ensures StatusOf(PayloadOf(o)) != Pending
  {
  }

  lemma WorkKeepsSafe(s: Node, outcome: Outcome, sendOk: bool, now: int, id: string)
    requires s.worker.Busy? && WorkerHonest(s) && Safe(s, id)
    ensures Safe(AfterWork(s, outcome, sendOk, now), id)
  {
  }

  lemma WorkKeepsHonest(s: Node, outcome: Outcome, sendOk: bool, now: int)
    requires s.worker.Busy? && WorkerHonest(s)
    ensures WorkerHonest(AfterWork(s, outcome, sendOk, now))
    ensures AfterWork(s, outcome, sendOk, now).past.accepted == s.past.accepted
    ensures AfterWork(s, outcome, sendOk, now).retry == s.retry
    ensures s.past.sent <= AfterWork(s, outcome, sendOk, now).past.sent
  {
    WorkerPayloadBuilds(s.worker.task.id, outcome);
  }

  lemma WorkKeepsDurable(s: Node, outcome: Outcome, sendOk: bool, now: int)
    requires Durable(s) && s.worker.Busy?
    ensures Durable(AfterWork(s, outcome, sendOk, now))
  {
    hide AfterWork, Safe, WorkerHonest;
    WorkKeepsHonest(s, outcome, sendOk, now);
    forall id | id in s.past.accepted ensures Safe(AfterWork(s, outcome, sendOk, now), id) {
      WorkKeepsSafe(s, outcome, sendOk, now, id);
    }
  }

  /** Only a successful save touches the tables. */
  lemma HandleKeepsTables(s: Node, h: nat, now: int)
    requires h in s.handlers && !s.handlers[h].Saving?
    ensures var next := AfterHandle(s, h, now);
      && next.tables == s.tables && next.worker == s.worker && next.retry == s.retry
      && next.past.accepted == s.past.accepted && next.past.sent == s.past.sent && next.past.exposed == s.past.exposed
  {
    hide AfterHold, AfterRelease, SamePayload;
  }

  lemma HandleKeepsSafe(s: Node, h: nat, now: int, id: string)
    requires h in s.handlers
    ensures Safe(s, id) ==> Safe(AfterHandle(s, h, now), id)
    ensures id in AfterHandle(s, h, now).past.accepted ==> id in s.past.accepted || Safe(AfterHandle(s, h, now), id)
  {
    hide AfterHold, AfterRelease, SamePayload;
    if !s.handlers[h].Saving? {
      HandleKeepsTables(s, h, now);
    }
  }

  lemma HandleKeepsHonest(s: Node, h: nat, now: int)
    requires h in s.handlers && WorkerHonest(s)
    ensures WorkerHonest(AfterHandle(s, h, now))
    ensures AfterHandle(s, h, now).retry == s.retry && AfterHandle(s, h, now).past.sent == s.past.sent
  {
    hide AfterHold, AfterRelease, SamePayload, BuildWire;
    if !s.handlers[h].Saving? {
      HandleKeepsTables(s, h, now);
    }
  }

  lemma HandleKeepsDurable(s: Node, h: nat, now: int)
    requires Durable(s) && h in s.handlers
    ensures Durable(AfterHandle(s, h, now))
  {
    hide AfterHandle, Safe, WorkerHonest;
    HandleKeepsHonest(s, h, now);
    forall id | id in AfterHandle(s, h, now).past.accepted ensures Safe(AfterHandle(s, h, now), id) {
      HandleKeepsSafe(s, h, now, id);
    }
  }

  lemma RetryKeepsDurable(s: Node, sendOk: bool)
    requires Durable(s) && Enabled(s, Resend(sendOk))
    ensures Durable(Apply(s, Resend(sendOk)))
  {
    var next := Apply(s, Resend(sendOk));
    forall id | id in next.past.accepted ensures Safe(next, id) {
      assert Safe(s, id);
    }
  }

  lemma PruneKeepsDurable(s: Node, cutoff: int)
    requires Durable(s)
    ensures Durable(s.(tables := PruneTasks(s.tables, cutoff)))
  {
    var next := s.(tables := PruneTasks(s.tables, cutoff));
    forall id | id in next.past.accepted ensures Safe(next, id) {
      assert Safe(s, id);
    }
  }

  lemma CrashKeepsDurable(s: Node)
    requires Durable(s)
    ensures Durable(AfterCrash(s))
  {
    var next := AfterCrash(s);
    forall id | id in next.past.accepted ensures Safe(next, id) {
      assert Safe(s, id);
    }
  }

  lemma StepKeepsDurable(s: Node, step: Step)
    requires Durable(s) && Enabled(s, step)
    ensures Durable(Apply(s, step))
  {
    hide Durable;
    match step
    case Work(outcome, sendOk, now) => WorkKeepsDurable(s, outcome, sendOk, now);
    case Handle(h, now) => HandleKeepsDurable(s, h, now);
    case Resend(sendOk) => RetryKeepsDurable(s, sendOk);
    case Prune(cutoff) => PruneKeepsDurable(s, cutoff);
    case Crash => CrashKeepsDurable(s);
    case _ => OtherStepsKeepDurable(s, step);
  }

  lemma OtherStepsKeepDurable(s: Node, step: Step)
    requires Durable(s) && Enabled(s, step)
    requires !step.Work? && !step.Handle? && !step.Resend? && !step.Prune? && !step.Crash?
    ensures Durable(Apply(s, step))
  {
    OtherStepsMoveNothing(s, step);
    hide Enabled, Apply;
    var next := Apply(s, step);
    forall id | id in next.past.accepted ensures Safe(next, id) {
      assert Safe(s, id);
    }
  }

  lemma OtherStepsMoveNothing(s: Node, step: Step)
    requires Enabled(s, step)
    requires !step.Work? && !step.Handle? && !step.Resend? && !step.Prune? && !step.Crash?
    ensures var next := Apply(s, step);
      && next.tables == s.tables
      && next.past.(place := s.past.place) == s.past
      && (next.worker == s.worker || (s.worker.Idle? && next.worker.Busy? && next.worker.phase == Start))
      && (next.retry == s.retry || next.retry.Resending?)
  {
    hide ListsResults, ListsPending, AfterHold;
  }

  /**
   In every reachable state, with crashes at any step, each accepted task is
   pending, has an outbox row, has had its result sent, is the one task between
   the worker's status update and the outbox write, or was there at a crash.
   */
  lemma {:induction false} EveryRunIsDurable(s: Node, steps: seq<Step>)
    requires Durable(s) && Run(s, steps)
    ensures Durable(RunTo(s, steps))
    decreases |steps|
  {
    if steps != [] {
      StepKeepsDurable(s, steps[0]);
      EveryRunIsDurable(Apply(s, steps[0]), steps[1..]);
    }
  }

  lemma InitiallyDurable()
    ensures Durable(INITIAL)
  {
  }

  /** Every crash of the run finds the worker outside the window. */
  ghost predicate CrashesOutsideWindow(s: Node, steps: seq<Step>)
    decreases |steps|
  {
    steps == [] || (
      && (steps[0].Crash? ==> Window(s) == {})
      && CrashesOutsideWindow(Apply(s, steps[0]), steps[1..]))
  }

  lemma ExposedOnlyByCrash(s: Node, step: Step)
    requires Enabled(s, step)
    ensures Apply(s, step).past.exposed == if step.Crash? then s.past.exposed + Window(s) else s.past.exposed
  {
    match step
    case Work(outcome, sendOk, now) => WorkExposesNothing(s, outcome, sendOk, now);
    case Handle(h, now) => HandleExposesNothing(s, h, now);
    case _ =>
    hide AfterWork, AfterHandle, ListsResults, ListsPending, AfterHold;
  }

  lemma WorkExposesNothing(s: Node, outcome: Outcome, sendOk: bool, now: int)
    requires s.worker.Busy?
    ensures AfterWork(s, outcome, sendOk, now).past.exposed == s.past.exposed
  {
    hide AfterRelease, Ledger.AfterStart, BuildWire, UpdateStatus, UpsertResult, DeleteResult;
  }

  lemma HandleExposesNothing(s: Node, h: nat, now: int)
    requires h in s.handlers
    ensures AfterHandle(s, h, now).past.exposed == s.past.exposed
  {
    hide AfterHold, AfterRelease, SaveTask, SamePayload;
  }

  lemma {:induction false} NothingExposed(s: Node, steps: seq<Step>)
    requires Run(s, steps) && CrashesOutsideWindow(s, steps)
    ensures RunTo(s, steps).past.exposed == s.past.exposed
    decreases |steps|
  {
    if steps != [] {
      ExposedOnlyByCrash(s, steps[0]);
      NothingExposed(Apply(s, steps[0]), steps[1..]);
    }
  }

  /** As long as no crash hits the window, no result is ever lost. */
  lemma NoLossOutsideTheWindow(steps: seq<Step>, id: string)
    requires Run(INITIAL, steps) && CrashesOutsideWindow(INITIAL, steps)
    requires id in RunTo(INITIAL, steps).past.accepted
    ensures Recoverable(RunTo(INITIAL, steps), id) || id in Window(RunTo(INITIAL, steps))
  {
    InitiallyDurable();
    EveryRunIsDurable(INITIAL, steps);
    NothingExposed(INITIAL, steps);
    assert Safe(RunTo(INITIAL, steps), id);
  }
}

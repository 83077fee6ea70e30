/**
 The handlers' code, run without interference (src/application/accept_task.rs,
 worker.rs, result_outbox.rs): what one undisturbed call leaves behind.
 */
module Application {
  import opened Wrappers
  import opened Json
  import opened Ledger
  import opened Storage
  import opened Lifecycle
  import opened Validation
  import Decimals
  import Schedule

  /** `compact_qubit_limit`: scalar output uses the MPS width, if there is one. */
  function CompactQubitLimit(outputMode: string, maxQubits: nat, maxMpsQubits: nat): nat {
    if (outputMode == "" || outputMode == "statevector_scalar") && maxMpsQubits > 0 then maxMpsQubits else maxQubits
  }

  /**
   The first half of `accept_compute_task`: limit, validation, normalization.
   An admitted circuit is normalized and would pass validation again; a refused
   one is left as it came.
   */
  method Admit(circuit: array<Gate>, qubits: nat, outputMode: string, maxQubits: nat, maxMpsQubits: nat, supported: seq<string>)
    returns (admitted: bool)
    modifies circuit
    ensures admitted <==>
      && (if (outputMode == "" || outputMode == "statevector_scalar") && maxMpsQubits > 0 then qubits <= maxMpsQubits else qubits <= maxQubits)
      && forall i :: 0 <= i < circuit.Length ==> ValidateGate(old(circuit[i]), i, qubits, supported).Ok?
    ensures admitted ==> forall i :: 0 <= i < circuit.Length ==> circuit[i] == NormalizeGate(old(circuit[i]))
    ensures admitted ==> forall i :: 0 <= i < circuit.Length ==> ValidateGate(circuit[i], i, qubits, supported).Ok?
    ensures !admitted ==> circuit[..] == old(circuit[..])
  {
    hide ValidateGate, NormalizeGate;
    if qubits > CompactQubitLimit(outputMode, maxQubits, maxMpsQubits) {
      return false;
    }
    ghost var before := circuit[..];
    assert forall i :: 0 <= i < circuit.Length ==> before[i] == circuit[i];
    var verdict := ValidateCircuitLogic(circuit[..], qubits, supported);
    if verdict.Err? {
      return false;
    }
    NormalizeGateParams(circuit);
    CircuitAcceptedExactly(before, circuit[..], qubits, supported);
    assert forall i :: 0 <= i < circuit.Length ==> circuit[i] == circuit[..][i];
    return true;
  }

  class AppState {
    const db: Database
    const work: WorkLedger
    var pending: int
    var queue: seq<Task>
    var open: bool

    constructor (db: Database, work: WorkLedger, pending: int)
      ensures this.db == db && this.work == work && this.pending == pending && queue == [] && open
    {
      this.db, this.work, this.pending, queue, open := db, work, pending, [], true;
    }

    /** The second half of `accept_compute_task`. */
    method AcceptTask(task: Task, now: int) returns (reply: Reply)
      modifies this`pending, this`queue, db`tasks, work
      ensures task.id in old(db.tasks) ==>
                && reply == (if old(db.tasks)[task.id].task.(budget := task.budget, acceptedAtMs := task.acceptedAtMs) == task then Duplicate else Refused)
                && db.Tables() == old(db.Tables()) && work.Contents() == old(work.Contents())
                && pending == old(pending) && queue == old(queue)
      ensures task.id !in old(db.tasks) ==>
                var held := AfterHold(old(work.Contents()), task.id, task.parent, task.budget);
                && reply == (if open then Accepted else QueueFull)
                && db.tasks == old(db.tasks)[task.id := TaskRow(task, Pending, now)]
                && pending == old(pending) + (if open then 1 else 0)
                && queue == (if open then old(queue) + [task] else old(queue))
                && work.Contents() == (if open then held else AfterRelease(held, task.id))
    {
      var existing := LoadTask(db.Tables(), task.id);
      if existing.Some? {
        return if SamePayload(existing.value, task) then Duplicate else Refused;
      }
      var saved := db.Save(task, now);
      pending := pending + 1;
      work.Hold(task.id, task.parent, task.budget);
      if !open {
        pending := pending - 1;
        work.Release(task.id);
        return QueueFull;
      }
      queue := queue + [task];
      return Accepted;
    }

    /** `deliver_result`: the outbox row is written before the send. */
    method DeliverResult(task: Task, payload: Payload, sendOk: bool, now: int) returns (sent: bool)
      modifies db`tasks, db`results, db`nextResultId
      ensures db.Tables() == AfterDelivery(old(db.Tables()), task.id, payload, sendOk, now)
      ensures sent <==> sendOk && BuildWire(task.id, payload).Ok?
    {
      var wire := BuildWire(task.id, payload);
      if wire.Err? {
        return false;
      }
      db.UpsertPendingResult(task.id, wire.value, now);
      db.SetStatus(task.id, StatusOf(payload));
      if sendOk {
        db.DeletePendingResult(task.id);
      }
      return sendOk;
    }

    /**
     `process_task`: one task from start to release. `core` is what core would
     answer; it is not asked once the orchestrator's deadline has passed.
     */
    method ProcessTask(task: Task, ownSecs: nat, nowMs: nat, core: Outcome, sendOk: bool, now: int)
      modifies this`pending, db`tasks, db`results, db`nextResultId, work
      ensures pending == old(pending) - 1
      ensures work.Contents() == AfterRelease(Ledger.AfterStart(old(work.Contents()), task.id, now as real), task.id)
      ensures db.Tables() == AfterProcessing(old(db.Tables()), task.id, OutcomeOf(task, ownSecs, nowMs, core), sendOk, now)
    {
      work.Start(task.id, now as real);
      var timeout := ComputeTimeout(ownSecs, task.budget, WaitedMs(task, nowMs) as real / 1000.0);
      var payload := PayloadOf(if timeout.Some? then core else Failure(DeadlinePassed(WaitedMs(task, nowMs))));
      db.SetStatus(task.id, StatusOf(payload));
      var sent := DeliverResult(task, payload, sendOk, now);
      pending := pending - 1;
      work.Release(task.id);
    }
  }

  /** The failure the orchestrator is told: the whole seconds waited, in decimal. */
  function DeadlinePassed(waitedMs: nat): string {
    "deadline passed after " + Decimals.NatText(waitedMs / 1000) + "s in the node queue"
  }

  /** Milliseconds since the accept; a task without a stamp has not waited. */
  function WaitedMs(task: Task, nowMs: nat): nat {
    if task.acceptedAtMs == 0 || nowMs <= task.acceptedAtMs then 0 else nowMs - task.acceptedAtMs
  }

  function OutcomeOf(task: Task, ownSecs: nat, nowMs: nat, core: Outcome): Outcome {
    var waitedMs := WaitedMs(task, nowMs);
    if ComputeTimeout(ownSecs, task.budget, waitedMs as real / 1000.0).Some? then core else Failure(DeadlinePassed(waitedMs))
  }

  /**
   Core is passed over exactly when the wait has used up the deadline of a
   budget; the failure then spells the whole seconds between the two clocks.
   */
  lemma CoreIsAskedWithinTheDeadline(task: Task, ownSecs: nat, nowMs: nat, core: Outcome)
    ensures task.budget.None? ==> OutcomeOf(task, ownSecs, nowMs, core) == core
    ensures task.budget.Some? ==>
              var deadlineMs := 1000 * task.budget.value.deadlineSecs;
              if deadlineMs > 0 && (task.acceptedAtMs == 0 || nowMs < task.acceptedAtMs + deadlineMs)
              then OutcomeOf(task, ownSecs, nowMs, core) == core
              else
                var waitedSecs := if task.acceptedAtMs == 0 || nowMs < task.acceptedAtMs then 0 else (nowMs - task.acceptedAtMs) / 1000;
                OutcomeOf(task, ownSecs, nowMs, core) == Failure("deadline passed after " + Decimals.NatText(waitedSecs) + "s in the node queue")
  {
    hide Decimals.NatText;
  }

  /** The worker's wait is the one the plan is made with: both clocks cut to milliseconds. */
  lemma WaitIsMeasured(task: Task, nowMs: nat, now: real, acceptedAt: real)
    requires task.acceptedAtMs == (acceptedAt * 1000.0).Floor && nowMs == (now * 1000.0).Floor
    ensures WaitedMs(task, nowMs) as real / 1000.0 == Schedule.MeasuredWait(now, acceptedAt)
  {
  }

  function AfterDelivery(t: TaskTables, id: string, payload: Payload, sendOk: bool, now: int): TaskTables {
    match BuildWire(id, payload)
    case Err(_) => t
    case Ok(wire) =>
      var stored := UpdateStatus(UpsertResult(t, id, wire, now), id, StatusOf(payload));
      if sendOk then DeleteResult(stored, id) else stored
  }

  function AfterProcessing(t: TaskTables, id: string, outcome: Outcome, sendOk: bool, now: int): TaskTables {
    AfterDelivery(UpdateStatus(t, id, StatusOf(PayloadOf(outcome))), id, PayloadOf(outcome), sendOk, now)
  }

  function WireOf(id: string, outcome: Outcome): Wire {
    match outcome
    case Success(result, proof) => SuccessWire(id, result, proof)
    case Failure(reason) => FailureWire(id, reason)
  }

  /**
   A wire body needs a success with both its parts, or a failure, whose reason
   defaults; the refusal names the part that is missing.
   */
  lemma WireBodyExactly(id: string, p: Payload)
    ensures BuildWire(id, p).Ok? <==> !p.success || (p.complexResult.Some? && p.proof.Some?)
    ensures p.success && p.complexResult.Some? && p.proof.Some? ==>
              BuildWire(id, p) == Ok(SuccessWire(id, p.complexResult.value, p.proof.value))
    ensures !p.success ==>
              BuildWire(id, p) == Ok(FailureWire(id, match p.error case None => "compute failed" case Some(reason) => reason))
    ensures p.success && p.complexResult.None? ==> BuildWire(id, p) == Err("missing complex_result for successful task")
    ensures p.success && p.complexResult.Some? && p.proof.None? ==> BuildWire(id, p) == Err("missing proof for successful task")
  {
  }

  /**
   A processed task is terminal and its result is either sent or in the outbox,
   with the outcome core gave and no attempts counted; other rows are untouched.
   */
  lemma ProcessedTaskIsAccountedFor(t: TaskTables, id: string, outcome: Outcome, sendOk: bool, now: int)
    ensures var next := AfterProcessing(t, id, outcome, sendOk, now);
      && next.tasks == (if id in t.tasks
                        then t.tasks[id := t.tasks[id].(status := if outcome.Success? then Completed else Failed)]
                        else t.tasks)
      && next.results - {id} == t.results - {id}
      && (sendOk <==> id !in next.results)
      && (!sendOk ==> next.results[id].wire == WireOf(id, outcome) && next.results[id].attempts == 0)
  {
    var marked := UpdateStatus(t, id, StatusOf(PayloadOf(outcome)));
    var stored := UpsertResult(marked, id, WireOf(id, outcome), now);
    assert BuildWire(id, PayloadOf(outcome)) == Ok(WireOf(id, outcome));
    assert stored.results - {id} == t.results - {id};
  }

  // ---------------------------------------------------------------------
  // One round of the retry loop
  // ---------------------------------------------------------------------

  /** What a round leaves of a row: delivered rows go, the others count one attempt. */
  function AfterRound(row: ResultRow, delivered: bool): Option<ResultRow> {
    if delivered then None else Some(row.(attempts := row.attempts + 1))
  }

  ghost predicate RoundDone(results: map<string, ResultRow>, id: string, row: ResultRow, delivered: bool) {
    match AfterRound(row, delivered)
    case None => id !in results
    case Some(after) => id in results && results[id] == after
  }

  ghost predicate RoundSoFar(before: map<string, ResultRow>, results: map<string, ResultRow>, entries: seq<Entry>, acks: seq<bool>, done: nat)
    requires |acks| == |entries| && done <= |entries|
    requires forall i :: 0 <= i < |entries| ==> entries[i].id in before
  {
    && results.Keys <= before.Keys
    && (forall j :: 0 <= j < done ==> RoundDone(results, entries[j].id, before[entries[j].id], acks[j]))
    && (forall j :: done <= j < |entries| ==> entries[j].id in results && results[entries[j].id] == before[entries[j].id])
  }

  /** Each listed row is sent once; the table ends as if every row had been handled alone. */
  method RetryRound(db: Database, entries: seq<Entry>, acks: seq<bool>)
    requires RowIdsUnique(db.Tables()) && ListsResults(entries, db.results) && |acks| == |entries|
    modifies db`results
    ensures RoundSoFar(old(db.results), db.results, entries, acks, |entries|)
  {
    ghost var before := db.results;
    for i := 0 to |entries|
      invariant RowIdsUnique(db.Tables())
      invariant RoundSoFar(before, db.results, entries, acks, i)
    {
      var id := entries[i].id;
      ghost var now := db.Tables();
      if acks[i] {
        db.DeletePendingResult(id);
        UpsertKeepsRowIdsUnique(now, id, entries[i].wire, 0);
      } else {
        CountAttemptTouchesOneRow(now, id);
        db.CountResultAttempt(entries[i].rowId);
      }
      RoundStep(before, now.results, db.results, entries, acks, i);
    }
  }

  lemma RoundStep(before: map<string, ResultRow>, now: map<string, ResultRow>, next: map<string, ResultRow>, entries: seq<Entry>, acks: seq<bool>, i: nat)
    requires ListsResults(entries, before) && |acks| == |entries| && i < |entries|
    requires RoundSoFar(before, now, entries, acks, i)
    requires var id := entries[i].id;
             next == if acks[i] then now - {id} else now[id := now[id].(attempts := now[id].attempts + 1)]
    ensures RoundSoFar(before, next, entries, acks, i + 1)
  {
  }
}

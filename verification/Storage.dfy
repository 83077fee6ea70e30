/**
 The tables behind `Storage` (src/infra/storage.rs), for one orchestrator key,
 so that a row is found by its sub-task id alone.
 */
module Storage {
  import opened Wrappers
  import opened Ledger

  /** `request` is the JSON of the dispatched request without the node id. */
  datatype Task = Task(id: string, parent: Option<string>, request: string, budget: Option<Budget>, acceptedAtMs: nat)

  datatype Status = Pending | Completed | Failed

  datatype TaskRow = TaskRow(task: Task, status: Status, createdAt: int)

  /** A result as it goes over the wire. */
  datatype Wire = SuccessWire(sub: string, result: string, proof: string) | FailureWire(sub: string, reason: string)

  datatype ResultRow = ResultRow(rowId: nat, wire: Wire, attempts: nat, createdAt: int)

  /** A retained proof waiting for the winner signal, or for its delivery. */
  datatype Job = Job(proof: string, requested: bool, bundle: Option<string>, openCall: Option<string>)

  datatype PcsRow = PcsRow(rowId: nat, job: Job, attempts: nat, createdAt: int)

  datatype TaskTables = TaskTables(tasks: map<string, TaskRow>, results: map<string, ResultRow>, nextResultId: nat)

  datatype PcsTable = PcsTable(rows: map<string, PcsRow>, nextId: nat)

  const NO_TASKS := TaskTables(map[], map[], 1)
  const NO_PCS := PcsTable(map[], 1)

  // ---------------------------------------------------------------------
  // One storage call each
  // ---------------------------------------------------------------------

  /** INSERT: refused by the UNIQUE key when the row exists. */
  function SaveTask(t: TaskTables, task: Task, now: int): Option<TaskTables> {
    if task.id in t.tasks then None else Some(t.(tasks := t.tasks[task.id := TaskRow(task, Pending, now)]))
  }

  function LoadTask(t: TaskTables, id: string): Option<Task> {
    if id in t.tasks then Some(t.tasks[id].task) else None
  }

  function UpdateStatus(t: TaskTables, id: string, status: Status): TaskTables {
    if id in t.tasks then t.(tasks := t.tasks[id := t.tasks[id].(status := status)]) else t
  }

  predicate Prunable(t: TaskTables, id: string, cutoff: int)
    requires id in t.tasks
  {
    t.tasks[id].status != Pending && t.tasks[id].createdAt < cutoff && id !in t.results
  }

  function PrunedIds(t: TaskTables, cutoff: int): set<string> {
    set id | id in t.tasks && Prunable(t, id, cutoff)
  }

  function PruneTasks(t: TaskTables, cutoff: int): TaskTables {
    t.(tasks := t.tasks - PrunedIds(t, cutoff))
  }

  /** INSERT … ON CONFLICT: the row id stays, the attempts start over. */
  function UpsertResult(t: TaskTables, id: string, wire: Wire, now: int): TaskTables {
    var rowId := if id in t.results then t.results[id].rowId else t.nextResultId;
    t.(results := t.results[id := ResultRow(rowId, wire, 0, now)], nextResultId := t.nextResultId + 1)
  }

  function DeleteResult(t: TaskTables, id: string): TaskTables {
    t.(results := t.results - {id})
  }

  function CountAttempt(t: TaskTables, rowId: nat): TaskTables {
    t.(results := map id | id in t.results ::
         if t.results[id].rowId == rowId then t.results[id].(attempts := t.results[id].attempts + 1) else t.results[id])
  }

  /** INSERT … ON CONFLICT that keeps `created_at`. */
  function UpsertPcs(t: PcsTable, id: string, job: Job, now: int): PcsTable {
    if id in t.rows
    then t.(rows := t.rows[id := t.rows[id].(job := job, attempts := 0)], nextId := t.nextId + 1)
    else t.(rows := t.rows[id := PcsRow(t.nextId, job, 0, now)], nextId := t.nextId + 1)
  }

  function DeletePcs(t: PcsTable, id: string): PcsTable {
    t.(rows := t.rows - {id})
  }

  function DeletePcsById(t: PcsTable, rowId: nat): PcsTable {
    t.(rows := map id | id in t.rows && t.rows[id].rowId != rowId :: t.rows[id])
  }

  function CountPcsAttempt(t: PcsTable, rowId: nat): PcsTable {
    t.(rows := map id | id in t.rows ::
         if t.rows[id].rowId == rowId then t.rows[id].(attempts := t.rows[id].attempts + 1) else t.rows[id])
  }

  /** The database connection: its tables are rewritten in place. */
  class Database {
    var tasks: map<string, TaskRow>
    var results: map<string, ResultRow>
    var nextResultId: nat
    var pcs: map<string, PcsRow>
    var nextPcsId: nat

    function Tables(): TaskTables
      reads this
    {
      TaskTables(tasks, results, nextResultId)
    }

    function Pcs(): PcsTable
      reads this
    {
      PcsTable(pcs, nextPcsId)
    }

    /** `CREATE TABLE IF NOT EXISTS`: a new file starts empty, an existing one keeps its rows. */
    constructor (file: Option<(TaskTables, PcsTable)>)
      ensures file.None? ==> Tables() == NO_TASKS && Pcs() == NO_PCS
      ensures file.Some? ==> Tables() == file.value.0 && Pcs() == file.value.1
    {
      var (t, p) := if file.Some? then file.value else (NO_TASKS, NO_PCS);
      tasks, results, nextResultId := t.tasks, t.results, t.nextResultId;
      pcs, nextPcsId := p.rows, p.nextId;
    }

    method Save(task: Task, now: int) returns (saved: bool)
      modifies this`tasks
      ensures saved == SaveTask(old(Tables()), task, now).Some?
      ensures saved ==> Tables() == SaveTask(old(Tables()), task, now).value
      ensures !saved ==> Tables() == old(Tables())
    {
      if task.id in tasks {
        return false;
      }
      tasks := tasks[task.id := TaskRow(task, Pending, now)];
      return true;
    }

    method SetStatus(id: string, status: Status)
      modifies this`tasks
      ensures Tables() == UpdateStatus(old(Tables()), id, status)
    {
      if id in tasks {
        tasks := tasks[id := tasks[id].(status := status)];
      }
    }

    /** One DELETE: terminal rows with an outbox entry stay. */
    method Prune(cutoff: int) returns (deleted: nat)
      modifies this`tasks
      ensures Tables() == PruneTasks(old(Tables()), cutoff)
      ensures |tasks| + deleted == |old(tasks)|
      ensures tasks.Keys <= old(tasks).Keys && forall id :: id in tasks ==> tasks[id] == old(tasks)[id]
      ensures forall id :: id in old(tasks) ==>
                (id !in tasks <==> old(tasks)[id].status != Pending && old(tasks)[id].createdAt < cutoff && id !in results)
    {
      var gone := PrunedIds(Tables(), cutoff);
      deleted := |gone|;
      RemovingKeys(tasks, gone);
      tasks := tasks - gone;
    }

    method UpsertPendingResult(id: string, wire: Wire, now: int)
      modifies this`results, this`nextResultId
      ensures Tables() == UpsertResult(old(Tables()), id, wire, now)
    {
      var rowId := if id in results then results[id].rowId else nextResultId;
      results := results[id := ResultRow(rowId, wire, 0, now)];
      nextResultId := nextResultId + 1;
    }

    method DeletePendingResult(id: string)
      modifies this`results
      ensures Tables() == DeleteResult(old(Tables()), id)
    {
      results := results - {id};
    }

    method CountResultAttempt(rowId: nat)
      modifies this`results
      ensures Tables() == CountAttempt(old(Tables()), rowId)
    {
      results := map id | id in results ::
        if results[id].rowId == rowId then results[id].(attempts := results[id].attempts + 1) else results[id];
    }

    method UpsertPendingPcs(id: string, job: Job, now: int)
      modifies this`pcs, this`nextPcsId
      ensures Pcs() == UpsertPcs(old(Pcs()), id, job, now)
      ensures id in old(pcs) ==> pcs[id].createdAt == old(pcs)[id].createdAt && pcs[id].rowId == old(pcs)[id].rowId
    {
      if id in pcs {
        pcs := pcs[id := pcs[id].(job := job, attempts := 0)];
      } else {
        pcs := pcs[id := PcsRow(nextPcsId, job, 0, now)];
      }
      nextPcsId := nextPcsId + 1;
    }

    method DeletePendingPcs(id: string)
      modifies this`pcs
      ensures Pcs() == DeletePcs(old(Pcs()), id)
    {
      pcs := pcs - {id};
    }
  }

  lemma RemovingKeys(m: map<string, TaskRow>, keys: set<string>)
    requires keys <= m.Keys
    ensures |m - keys| + |keys| == |m|
  {
    assert (m - keys).Keys == m.Keys - keys;
    assert |m.Keys - keys| == |m.Keys| - |keys|;
  }

  // ---------------------------------------------------------------------
  // Rows are named by one id
  // ---------------------------------------------------------------------

  /** Row ids are handed out once. */
  ghost predicate RowIdsUnique(t: TaskTables) {
    && (forall id :: id in t.results ==> t.results[id].rowId < t.nextResultId)
    && (forall a, b :: a in t.results && b in t.results && a != b ==> t.results[a].rowId != t.results[b].rowId)
  }

  /** Counting an attempt by row id touches that one row and nothing else of it. */
  lemma CountAttemptTouchesOneRow(t: TaskTables, id: string)
    requires RowIdsUnique(t) && id in t.results
    ensures var row := t.results[id];
            CountAttempt(t, row.rowId) == t.(results := t.results[id := row.(attempts := row.attempts + 1)])
    ensures RowIdsUnique(CountAttempt(t, t.results[id].rowId))
  {
    var row := t.results[id];
    assert CountAttempt(t, row.rowId).results == t.results[id := row.(attempts := row.attempts + 1)];
  }

  lemma UpsertKeepsRowIdsUnique(t: TaskTables, id: string, wire: Wire, now: int)
    requires RowIdsUnique(t)
    ensures RowIdsUnique(UpsertResult(t, id, wire, now)) && RowIdsUnique(DeleteResult(t, id))
  {
  }
}

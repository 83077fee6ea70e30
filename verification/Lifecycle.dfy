/**
 The life of a dispatched sub-task (src/application/accept_task.rs, worker.rs,
 result_outbox.rs, task_prune.rs and the recovery in src/main.rs) as a state
 machine: each storage, counter, ledger or channel call is one step, and steps
 of all handlers, the worker, the retry loop, pruning and crashes interleave.
 */
module Lifecycle {
  import opened Wrappers
  import opened Ledger
  import opened Storage

  /** Slots of the channel between the handlers and the worker. */
  const CAPACITY: nat := 100

  // ---------------------------------------------------------------------
  // Processes
  // ---------------------------------------------------------------------

  datatype Reply = Accepted | Duplicate | Refused | QueueFull

  /** Where a dispatch handler stands; the name is what it does next. */
  datatype Handler =
    | Looking(task: Task)
    | Saving(task: Task)
    | Rechecking(task: Task)
    | Counting(task: Task)
    | Holding(task: Task)
    | Sending(task: Task)
    | Uncounting(task: Task)
    | Letting(task: Task)
    | Done(task: Task, reply: Reply)

  /** `dispatch_payload_matches`: everything but the node id, the budget and the clock. */
  predicate SamePayload(existing: Task, incoming: Task) {
    existing.id == incoming.id && existing.parent == incoming.parent && existing.request == incoming.request
  }

  datatype Outcome = Success(result: string, proof: string) | Failure(reason: string)

  /** `TaskResultPayload`: the parts the wire body is made of. */
  datatype Payload = Payload(success: bool, complexResult: Option<string>, proof: Option<string>, error: Option<string>)

  function PayloadOf(o: Outcome): Payload {
    match o
    case Success(result, proof) => Payload(true, Some(result), Some(proof), None)
    case Failure(reason) => Payload(false, None, None, Some(reason))
  }

  function BuildWire(id: string, p: Payload): Result<Wire, string> {
    if !p.success then
      Ok(FailureWire(id, if p.error.Some? then p.error.value else "compute failed"))
    else if p.complexResult.None? then
      Err("missing complex_result for successful task")
    else if p.proof.None? then
      Err("missing proof for successful task")
    else
      Ok(SuccessWire(id, p.complexResult.value, p.proof.value))
  }

  function StatusOf(p: Payload): Status {
    if p.success then Completed else Failed
  }

  /** What the worker does next with its task. */
  datatype Phase = Start | Compute | Mark | Store | Remark | Deliver | Delete | Uncount | Release

  datatype Worker = Idle | Busy(task: Task, phase: Phase, payload: Payload)

  const NO_PAYLOAD := Payload(false, None, None, None)

  datatype Entry = Entry(rowId: nat, id: string, wire: Wire)

  /** The retry loop works through the rows it listed. */
  datatype Retry =
    | Resting
    | Resending(entries: seq<Entry>)
    | Clearing(entry: Entry, more: seq<Entry>)
    | Noting(entry: Entry, more: seq<Entry>)

  datatype Mode = Down | Recovering(rest: seq<Task>, headHeld: bool) | Up

  /** Where a live task is. Kept for the proofs, like the fields of `History`. */
  datatype Place = AtHandler(h: nat) | InQueue | AtWorker | InRecovery

  /** What happened so far; no step looks at it. */
  datatype History = History(
    accepted: set<string>,
    stored: set<string>,
    sent: set<string>,
    exposed: set<string>,
    inserts: multiset<string>,
    enqueues: multiset<string>,
    place: map<string, Place>)

  datatype Node = Node(
    tables: TaskTables,
    mode: Mode,
    open: bool,
    handlers: map<nat, Handler>,
    queue: seq<Task>,
    worker: Worker,
    retry: Retry,
    pending: int,
    ledger: Ledger.State,
    past: History)

  const INITIAL := Node(NO_TASKS, Down, false, map[], [], Idle, Resting, 0, EMPTY, History({}, {}, {}, {}, multiset{}, multiset{}, map[]))

  function Ids(tasks: seq<Task>): set<string> {
    set i | 0 <= i < |tasks| :: tasks[i].id
  }

  ghost predicate DistinctIds(tasks: seq<Task>) {
    forall i, j :: 0 <= i < j < |tasks| ==> tasks[i].id != tasks[j].id
  }

  // ---------------------------------------------------------------------
  // Handlers
  // ---------------------------------------------------------------------

  function SetHandler(s: Node, h: nat, handler: Handler): Node {
    s.(handlers := s.handlers[h := handler])
  }

  /** An existing row answers the dispatch: a duplicate, or a different payload. */
  function AnswerFrom(existing: Task, task: Task): Reply {
    if SamePayload(existing, task) then Duplicate else Refused
  }

  function AfterLooking(s: Node, h: nat, task: Task): Node {
    match LoadTask(s.tables, task.id)
    case None => SetHandler(s, h, Saving(task))
    case Some(existing) => SetHandler(s, h, Done(task, AnswerFrom(existing, task)))
  }

  function AfterSaving(s: Node, h: nat, task: Task, now: int): Node {
    match SaveTask(s.tables, task, now)
    case None => SetHandler(s, h, Rechecking(task))
    case Some(tables) =>
      SetHandler(s, h, Counting(task)).(
        tables := tables,
        past := s.past.(accepted := s.past.accepted + {task.id},
                        inserts := s.past.inserts + multiset{task.id},
                        place := s.past.place[task.id := AtHandler(h)]))
  }

  function AfterRechecking(s: Node, h: nat, task: Task): Node {
    match LoadTask(s.tables, task.id)
    case None => SetHandler(s, h, Done(task, Refused))
    case Some(existing) => SetHandler(s, h, Done(task, AnswerFrom(existing, task)))
  }

  function AfterSending(s: Node, h: nat, task: Task): Node {
    if s.open then
      SetHandler(s, h, Done(task, Accepted)).(
        queue := s.queue + [task],
        past := s.past.(enqueues := s.past.enqueues + multiset{task.id}, place := s.past.place[task.id := InQueue]))
    else
      SetHandler(s, h, Uncounting(task))
  }

  function AfterHandle(s: Node, h: nat, now: int): Node
    requires h in s.handlers
  {
    match s.handlers[h]
    case Looking(task) => AfterLooking(s, h, task)
    case Saving(task) => AfterSaving(s, h, task, now)
    case Rechecking(task) => AfterRechecking(s, h, task)
    case Counting(task) => SetHandler(s, h, Holding(task)).(pending := s.pending + 1)
    case Holding(task) => SetHandler(s, h, Sending(task)).(ledger := AfterHold(s.ledger, task.id, task.parent, task.budget))
    case Sending(task) => AfterSending(s, h, task)
    case Uncounting(task) => SetHandler(s, h, Letting(task)).(pending := s.pending - 1)
    case Letting(task) =>
      SetHandler(s, h, Done(task, QueueFull)).(
        ledger := AfterRelease(s.ledger, task.id),
        past := s.past.(place := s.past.place - {task.id}))
    case Done(_, _) => s
  }

  /** A send waits while the channel is full, unless its receiver is gone. */
  predicate CanHandle(s: Node, h: nat) {
    && h in s.handlers
    && !s.handlers[h].Done?
    && (s.handlers[h].Sending? ==> !s.open || |s.queue| < CAPACITY)
  }

  // ---------------------------------------------------------------------
  // The worker
  // ---------------------------------------------------------------------

  function AfterReceive(s: Node): Node
    requires s.queue != []
  {
    s.(queue := s.queue[1..],
       worker := Busy(s.queue[0], Start, NO_PAYLOAD),
       past := s.past.(place := s.past.place[s.queue[0].id := AtWorker]))
  }

  function NextPhase(s: Node, phase: Phase): Node
    requires s.worker.Busy?
  {
    s.(worker := s.worker.(phase := phase))
  }

  function AfterStore(s: Node, now: int): Node
    requires s.worker.Busy?
  {
    var id := s.worker.task.id;
    match BuildWire(id, s.worker.payload)
    case Err(_) => NextPhase(s, Uncount)
    case Ok(wire) =>
      NextPhase(s, Remark).(
        tables := UpsertResult(s.tables, id, wire, now),
        past := s.past.(stored := s.past.stored + {id}))
  }

  function AfterWork(s: Node, outcome: Outcome, sendOk: bool, now: int): Node
    requires s.worker.Busy?
  {
    var id := s.worker.task.id;
    var status := StatusOf(s.worker.payload);
    match s.worker.phase
    case Start => NextPhase(s, Compute).(ledger := Ledger.AfterStart(s.ledger, id, now as real))
    case Compute => s.(worker := s.worker.(phase := Mark, payload := PayloadOf(outcome)))
    case Mark => NextPhase(s, Store).(tables := UpdateStatus(s.tables, id, status))
    case Store => AfterStore(s, now)
    case Remark => NextPhase(s, Deliver).(tables := UpdateStatus(s.tables, id, status))
    case Deliver =>
      if sendOk
      then NextPhase(s, Delete).(past := s.past.(sent := s.past.sent + {id}))
      else NextPhase(s, Uncount)
    case Delete => NextPhase(s, Uncount).(tables := DeleteResult(s.tables, id))
    case Uncount => NextPhase(s, Release).(pending := s.pending - 1)
    case Release =>
      s.(worker := Idle, ledger := AfterRelease(s.ledger, id), past := s.past.(place := s.past.place - {id}))
  }

  // ---------------------------------------------------------------------
  // Retry loop, pruning, crash and recovery
  // ---------------------------------------------------------------------

  /** `SELECT … FROM pending_results`: every row once. */
  ghost predicate ListsResults(entries: seq<Entry>, results: map<string, ResultRow>) {
    && (forall i :: 0 <= i < |entries| ==>
          && entries[i].id in results
          && entries[i].rowId == results[entries[i].id].rowId
          && entries[i].wire == results[entries[i].id].wire)
    && (forall i, j :: 0 <= i < j < |entries| ==> entries[i].id != entries[j].id)
    && |entries| == |results|
  }

  function NextEntries(more: seq<Entry>): Retry {
    if more == [] then Resting else Resending(more)
  }

  function AfterRetry(s: Node, sendOk: bool): Node
    requires s.retry.Resending? ==> s.retry.entries != []
  {
    match s.retry
    case Resting => s
    case Resending(entries) =>
      if sendOk
      then s.(retry := Clearing(entries[0], entries[1..]), past := s.past.(sent := s.past.sent + {entries[0].id}))
      else s.(retry := Noting(entries[0], entries[1..]))
    case Clearing(entry, more) => s.(retry := NextEntries(more), tables := DeleteResult(s.tables, entry.id))
    case Noting(entry, more) => s.(retry := NextEntries(more), tables := CountAttempt(s.tables, entry.rowId))
  }

  /** The task whose row is already terminal and whose result is not stored yet. */
  function Window(s: Node): set<string> {
    if s.worker.Busy? && s.worker.phase == Store then {s.worker.task.id} else {}
  }

  /** Everything in memory is gone; the tables stay. */
  function AfterCrash(s: Node): Node {
    Node(s.tables, Down, false, map[], [], Idle, Resting, 0, EMPTY,
      s.past.(exposed := s.past.exposed + Window(s), place := map[]))
  }

  /** `get_pending_tasks`: the pending rows, oldest first. */
  ghost predicate ListsPending(rows: seq<Task>, tasks: map<string, TaskRow>) {
    && DistinctIds(rows)
    && (forall i :: 0 <= i < |rows| ==>
          rows[i].id in tasks && tasks[rows[i].id].status == Pending && tasks[rows[i].id].task == rows[i])
    && (forall id :: id in tasks && tasks[id].status == Pending ==> id in Ids(rows))
    && (forall i, j :: 0 <= i < j < |rows| && rows[i].id in tasks && rows[j].id in tasks ==>
          tasks[rows[i].id].createdAt <= tasks[rows[j].id].createdAt)
  }

  function AfterBoot(s: Node, rows: seq<Task>): Node {
    s.(mode := Recovering(rows, false), open := true, pending := |rows|, ledger := EMPTY,
       past := s.past.(place := map id | id in Ids(rows) :: InRecovery))
  }

  /** Hold the next restored task, then send it; the worker is not spawned yet. */
  function AfterRecover(s: Node): Node
    requires s.mode.Recovering?
  {
    var rest := s.mode.rest;
    if rest == [] then
      s.(mode := Up)
    else if !s.mode.headHeld then
      s.(mode := Recovering(rest, true), ledger := AfterHold(s.ledger, rest[0].id, rest[0].parent, rest[0].budget))
    else
      s.(mode := Recovering(rest[1..], false), queue := s.queue + [rest[0]],
         past := s.past.(place := s.past.place[rest[0].id := InQueue]))
  }

  predicate CanRecover(s: Node) {
    && s.mode.Recovering?
    && (s.mode.rest != [] && s.mode.headHeld ==> |s.queue| < CAPACITY)
  }

  // ---------------------------------------------------------------------
  // Steps and runs
  // ---------------------------------------------------------------------

  datatype Step =
    | Dispatch(h: nat, task: Task)
    | Handle(h: nat, now: int)
    | Receive
    | Work(outcome: Outcome, sendOk: bool, now: int)
    | CloseWorker
    | List(entries: seq<Entry>)
    | Resend(sendOk: bool)
    | Prune(cutoff: int)
    | Crash
    | Boot(rows: seq<Task>)
    | Recover

  ghost predicate Enabled(s: Node, step: Step) {
    match step
    case Dispatch(h, _) => s.mode.Up? && h !in s.handlers
    case Handle(h, _) => s.mode.Up? && CanHandle(s, h)
    case Receive => s.mode.Up? && s.open && s.worker.Idle? && s.queue != []
    case Work(_, _, _) => s.mode.Up? && s.open && s.worker.Busy?
    case CloseWorker => s.mode.Up?
    case List(entries) => s.mode.Up? && s.retry.Resting? && entries != [] && ListsResults(entries, s.tables.results)
    case Resend(_) => s.mode.Up? && !s.retry.Resting? && (s.retry.Resending? ==> s.retry.entries != [])
    case Prune(_) => s.mode.Up?
    case Crash => true
    case Boot(rows) => s.mode.Down? && ListsPending(rows, s.tables.tasks)
    case Recover => CanRecover(s)
  }

  /** The state after a step; a step that is not enabled changes nothing. */
  ghost function Apply(s: Node, step: Step): Node {
    if !Enabled(s, step) then s else
    match step
    case Dispatch(h, task) => SetHandler(s, h, Looking(task))
    case Handle(h, now) => AfterHandle(s, h, now)
    case Receive => AfterReceive(s)
    case Work(outcome, sendOk, now) => AfterWork(s, outcome, sendOk, now)
    case CloseWorker => s.(open := false)
    case List(entries) => s.(retry := Resending(entries))
    case Resend(sendOk) => AfterRetry(s, sendOk)
    case Prune(cutoff) => s.(tables := PruneTasks(s.tables, cutoff))
    case Crash => AfterCrash(s)
    case Boot(rows) => AfterBoot(s, rows)
    case Recover => AfterRecover(s)
  }

  ghost predicate Run(s: Node, steps: seq<Step>)
    decreases |steps|
  {
    steps == [] || (Enabled(s, steps[0]) && Run(Apply(s, steps[0]), steps[1..]))
  }

  ghost function RunTo(s: Node, steps: seq<Step>): Node
    decreases |steps|
  {
    if steps == [] then s else RunTo(Apply(s, steps[0]), steps[1..])
  }
}

/**
 The pending counter and the held ledger entries agree with where the tasks
 are, outside the two-step gaps, when every sub-task id is accepted once.
 */
module Counter {
  import opened Wrappers
  import opened Ledger
  import opened Storage
  import opened Lifecycle

  /** The handler is responsible for a task it has inserted. */
  predicate Responsible(h: Handler) {
    h.Counting? || h.Holding? || h.Sending? || h.Uncounting? || h.Letting?
  }

  ghost predicate Located(s: Node, id: string)
    requires id in s.past.place
  {
    match s.past.place[id]
    case AtHandler(h) => h in s.handlers && Responsible(s.handlers[h]) && s.handlers[h].task.id == id
    case InQueue => id in Ids(s.queue)
    case AtWorker => s.worker.Busy? && s.worker.task.id == id
    case InRecovery => s.mode.Recovering? && id in Ids(s.mode.rest)
  }

  ghost predicate At(s: Node, id: string, place: Place) {
    id in s.past.place && s.past.place[id] == place
  }

  ghost predicate HandlersPlaced(s: Node) {
    forall h :: h in s.handlers && Responsible(s.handlers[h]) ==> At(s, s.handlers[h].task.id, AtHandler(h))
  }

  ghost predicate ListPlaced(s: Node, tasks: seq<Task>, place: Place) {
    DistinctIds(tasks) && forall id :: id in Ids(tasks) ==> At(s, id, place)
  }

  /** Every live task is in one place, and every place knows its tasks. */
  ghost predicate Placed(s: Node) {
    && HandlersPlaced(s)
    && ListPlaced(s, s.queue, InQueue)
    && (s.worker.Busy? ==> At(s, s.worker.task.id, AtWorker))
    && (s.mode.Recovering? ==> ListPlaced(s, s.mode.rest, InRecovery))
    && (forall id :: id in s.past.place ==> Located(s, id))
  }

  ghost predicate Known(s: Node) {
    s.past.place.Keys <= s.past.accepted && s.tables.tasks.Keys <= s.past.accepted
  }

  /** Outside `Up` there are no handlers and no work. */
  ghost predicate Staged(s: Node) {
    && (!s.mode.Up? ==> s.handlers == map[] && s.worker.Idle?)
    && (s.mode.Down? ==> s.queue == [] && s.past.place == map[])
    && (s.mode.Recovering? && s.mode.headHeld ==> s.mode.rest != [])
  }

  ghost predicate Fresh(s: Node, step: Step) {
    step.Handle? && step.h in s.handlers && s.handlers[step.h].Saving? ==>
      s.handlers[step.h].task.id in s.tables.tasks || s.handlers[step.h].task.id !in s.past.accepted
  }

  lemma IdsAppend(tasks: seq<Task>, task: Task)
    ensures Ids(tasks + [task]) == Ids(tasks) + {task.id}
  {
    var longer := tasks + [task];
    assert longer[|tasks|] == task;
    forall id | id in Ids(tasks) ensures id in Ids(longer) {
      var i :| 0 <= i < |tasks| && tasks[i].id == id;
      assert longer[i].id == id;
    }
  }

  lemma IdsTail(tasks: seq<Task>)
    requires tasks != [] && DistinctIds(tasks)
    ensures DistinctIds(tasks[1..]) && Ids(tasks[1..]) == Ids(tasks) - {tasks[0].id}
    ensures tasks[0].id in Ids(tasks)
  {
    var rest := tasks[1..];
    forall id | id in Ids(tasks) - {tasks[0].id} ensures id in Ids(rest) {
      var i :| 0 <= i < |tasks| && tasks[i].id == id;
      assert rest[i - 1].id == id;
    }
    forall id | id in Ids(rest) ensures id in Ids(tasks) && id != tasks[0].id {
      var i :| 0 <= i < |rest| && rest[i].id == id;
      assert tasks[i + 1].id == id;
    }
  }

  lemma DistinctAppend(tasks: seq<Task>, task: Task)
    requires DistinctIds(tasks) && task.id !in Ids(tasks)
    ensures DistinctIds(tasks + [task])
  {
    forall i | 0 <= i < |tasks| ensures tasks[i].id != task.id {
      assert tasks[i].id in Ids(tasks);
    }
  }

  // ---------------------------------------------------------------------
  // Places are kept
  // ---------------------------------------------------------------------

  /** A handler that stays responsible, or was not and is not. */
  lemma SameDutyKeepsPlaced(s: Node, next: Node, h: nat)
    requires Placed(s) && h in s.handlers && h in next.handlers
    requires next.handlers == s.handlers[h := next.handlers[h]]
    requires next.handlers[h].task == s.handlers[h].task
    requires Responsible(next.handlers[h]) == Responsible(s.handlers[h])
    requires next.queue == s.queue && next.worker == s.worker && next.mode == s.mode && next.past.place == s.past.place
    ensures Placed(next)
  {
    hide Ids, DistinctIds;
  }

  lemma SavingKeepsPlaced(s: Node, h: nat, task: Task, now: int)
    requires Placed(s) && Known(s) && h in s.handlers && s.handlers[h] == Saving(task)
    requires task.id in s.tables.tasks || task.id !in s.past.accepted
    ensures Placed(AfterSaving(s, h, task, now))
  {
    hide Ids, DistinctIds;
    if task.id in s.tables.tasks {
      SameDutyKeepsPlaced(s, AfterSaving(s, h, task, now), h);
    }
  }

  lemma SendingKeepsPlaced(s: Node, h: nat, task: Task)
    requires Placed(s) && h in s.handlers && s.handlers[h] == Sending(task)
    ensures Placed(AfterSending(s, h, task))
  {
    hide Ids, DistinctIds;
    if s.open {
      IdsAppend(s.queue, task);
      assert At(s, task.id, AtHandler(h));
      assert task.id !in Ids(s.queue);
      DistinctAppend(s.queue, task);
      var next := AfterSending(s, h, task);
      assert next.handlers[h] == Done(task, Accepted);
    } else {
      SameDutyKeepsPlaced(s, AfterSending(s, h, task), h);
    }
  }

  lemma LettingKeepsPlaced(s: Node, h: nat, now: int)
    requires Placed(s) && h in s.handlers && s.handlers[h].Letting?
    ensures Placed(AfterHandle(s, h, now))
  {
    hide Ids, DistinctIds, AfterRelease;
    var id := s.handlers[h].task.id;
    assert At(s, id, AtHandler(h));
    var next := AfterHandle(s, h, now);
    assert next.handlers[h].Done?;
  }

  lemma HandleKeepsPlaced(s: Node, h: nat, now: int)
    requires Placed(s) && Known(s) && Enabled(s, Handle(h, now)) && Fresh(s, Handle(h, now))
    ensures Placed(AfterHandle(s, h, now))
  {
    hide Placed, AfterHold, AfterRelease, SamePayload, AfterSaving, AfterSending;
    var handler := s.handlers[h];
    if handler.Saving? {
      SavingKeepsPlaced(s, h, handler.task, now);
    } else if handler.Sending? {
      SendingKeepsPlaced(s, h, handler.task);
    } else if handler.Letting? {
      LettingKeepsPlaced(s, h, now);
    } else {
      SameDutyKeepsPlaced(s, AfterHandle(s, h, now), h);
    }
  }

  lemma ReceiveKeepsPlaced(s: Node)
    requires Placed(s) && s.queue != [] && s.worker.Idle?
    ensures Placed(AfterReceive(s))
  {
    hide Ids, DistinctIds;
    IdsTail(s.queue);
    assert At(s, s.queue[0].id, InQueue);
  }

  lemma WorkKeepsPlaced(s: Node, outcome: Outcome, sendOk: bool, now: int)
    requires Placed(s) && s.worker.Busy?
    ensures Placed(AfterWork(s, outcome, sendOk, now))
  {
    if s.worker.phase == Release {
      ReleaseKeepsPlaced(s, outcome, sendOk, now);
    } else {
      WorkKeepsPlaces(s, outcome, sendOk, now);
      hide AfterWork;
      SamePlaces(s, AfterWork(s, outcome, sendOk, now));
    }
  }

  lemma ReleaseKeepsPlaced(s: Node, outcome: Outcome, sendOk: bool, now: int)
    requires Placed(s) && s.worker.Busy? && s.worker.phase == Release
    ensures Placed(AfterWork(s, outcome, sendOk, now))
  {
    hide Ids, DistinctIds, AfterRelease;
    assert At(s, s.worker.task.id, AtWorker);
  }

  /** Until it releases the task, the worker moves nothing. */
  lemma WorkKeepsPlaces(s: Node, outcome: Outcome, sendOk: bool, now: int)
    requires s.worker.Busy? && s.worker.phase != Release
    ensures var next := AfterWork(s, outcome, sendOk, now);
      && next.handlers == s.handlers && next.queue == s.queue && next.mode == s.mode
      && next.worker.Busy? && next.worker.task == s.worker.task
      && next.past.place == s.past.place && next.past.accepted == s.past.accepted
      && next.tables.tasks.Keys == s.tables.tasks.Keys
  {
    hide BuildWire, Ledger.AfterStart;
  }

  lemma SamePlaces(s: Node, next: Node)
    requires Placed(s)
    requires next.handlers == s.handlers && next.queue == s.queue && next.mode == s.mode && next.past.place == s.past.place
    requires next.worker == s.worker || (next.worker.Busy? && s.worker.Busy? && next.worker.task == s.worker.task)
    ensures Placed(next)
  {
    hide Ids, DistinctIds, Responsible;
  }

  lemma RecoverKeepsPlaced(s: Node)
    requires Placed(s) && Staged(s) && CanRecover(s)
    ensures Placed(AfterRecover(s))
  {
    var rest := s.mode.rest;
    if rest == [] || !s.mode.headHeld {
      hide AfterHold;
    } else {
      IdsTail(rest);
      assert At(s, rest[0].id, InRecovery);
      IdsAppend(s.queue, rest[0]);
      hide Ids, DistinctIds;
      DistinctAppend(s.queue, rest[0]);
    }
  }

  lemma BootKeepsPlaced(s: Node, rows: seq<Task>)
    requires Staged(s) && s.mode.Down? && ListsPending(rows, s.tables.tasks)
    ensures Placed(AfterBoot(s, rows)) && Ids(rows) <= s.tables.tasks.Keys
  {
  }

  // ---------------------------------------------------------------------
  // The counter and the ledger
  // ---------------------------------------------------------------------

  /** Whether the task at its place has been added to the counter. */
  ghost predicate Counts(s: Node, id: string)
    requires id in s.past.place
  {
    match s.past.place[id]
    case AtHandler(h) => h in s.handlers && (s.handlers[h].Holding? || s.handlers[h].Sending? || s.handlers[h].Uncounting?)
    case AtWorker => s.worker.Busy? && s.worker.phase != Release
    case _ => true
  }

  /** Whether the task at its place has a held ledger entry. */
  ghost predicate Holds(s: Node, id: string)
    requires id in s.past.place
  {
    match s.past.place[id]
    case AtHandler(h) => h in s.handlers && (s.handlers[h].Sending? || s.handlers[h].Uncounting? || s.handlers[h].Letting?)
    case InRecovery => s.mode.Recovering? && s.mode.headHeld && s.mode.rest != [] && s.mode.rest[0].id == id
    case _ => true
  }

  ghost function CountedIds(s: Node): set<string> {
    set id | id in s.past.place && Counts(s, id)
  }

  ghost function HeldIds(s: Node): set<string> {
    set id | id in s.past.place && Holds(s, id)
  }

  ghost predicate Conserved(s: Node) {
    && (!s.mode.Down? ==> s.pending == |CountedIds(s)| && s.ledger.held.Keys == HeldIds(s))
  }

  ghost predicate Accounted(s: Node) {
    Placed(s) && Known(s) && Staged(s) && Conserved(s)
  }

  lemma LedgerKeys(ledger: Ledger.State, id: string, parent: Option<string>, budget: Option<Budget>, now: real)
    ensures AfterHold(ledger, id, parent, budget).held.Keys == ledger.held.Keys + {id}
    ensures AfterRelease(ledger, id).held.Keys == ledger.held.Keys - {id}
    ensures Ledger.AfterStart(ledger, id, now).held.Keys == ledger.held.Keys
  {
  }

  lemma {:induction false} DistinctCount(tasks: seq<Task>)
    requires DistinctIds(tasks)
    ensures |Ids(tasks)| == |tasks|
    decreases |tasks|
  {
    if tasks == [] {
      assert Ids(tasks) == {};
    } else {
      IdsTail(tasks);
      DistinctCount(tasks[1..]);
      assert |Ids(tasks)| == |Ids(tasks[1..])| + 1;
    }
  }

  /** How one handler step moves its own task between the gaps. */
  lemma HandleMoves(s: Node, h: nat, now: int)
    requires Placed(s) && Known(s) && Enabled(s, Handle(h, now)) && Fresh(s, Handle(h, now))
    ensures var id, next := s.handlers[h].task.id, AfterHandle(s, h, now);
      && (forall other :: other != id ==> (other in next.past.place <==> other in s.past.place)
                                           && (other in s.past.place ==> next.past.place[other] == s.past.place[other]))
      && (Responsible(s.handlers[h]) ==> id in s.past.place && s.past.place[id] == AtHandler(h))
      && next.handlers == s.handlers[h := next.handlers[h]]
      && next.mode == s.mode && next.worker == s.worker
  {
    hide Ids, DistinctIds, AfterHold, AfterRelease, SamePayload;
  }

  /** The other tasks are counted and held as before. */
  lemma OthersUnmoved(s: Node, h: nat, now: int, other: string)
    requires Placed(s) && Known(s) && Enabled(s, Handle(h, now)) && Fresh(s, Handle(h, now))
    requires other != s.handlers[h].task.id
    ensures var next := AfterHandle(s, h, now);
      && (other in CountedIds(next) <==> other in CountedIds(s))
      && (other in HeldIds(next) <==> other in HeldIds(s))
  {
    HandleMoves(s, h, now);
    hide AfterHandle;
    if other in s.past.place {
      assert Located(s, other);
    }
  }

  lemma OwnMove(s: Node, h: nat, now: int)
    requires Placed(s) && Known(s) && Enabled(s, Handle(h, now)) && Fresh(s, Handle(h, now))
    ensures var id, before, next := s.handlers[h].task.id, s.handlers[h], AfterHandle(s, h, now);
      && (id in CountedIds(next) <==> if before.Counting? then true else if before.Uncounting? then false else id in CountedIds(s))
      && (id in HeldIds(next) <==> if before.Holding? then true else if before.Letting? then false else id in HeldIds(s))
      && (before.Counting? ==> id !in CountedIds(s)) && (before.Uncounting? ==> id in CountedIds(s))
      && next.pending == s.pending + (if before.Counting? then 1 else if before.Uncounting? then -1 else 0)
      && next.ledger.held.Keys == if before.Holding? then s.ledger.held.Keys + {id} else if before.Letting? then s.ledger.held.Keys - {id} else s.ledger.held.Keys
  {
    var task := s.handlers[h].task;
    LedgerKeys(s.ledger, task.id, task.parent, task.budget, 0.0);
    hide Ids, DistinctIds, AfterHold, AfterRelease, SamePayload;
    if s.handlers[h].Looking? || s.handlers[h].Saving? || s.handlers[h].Rechecking? {
      BystanderMove(s, h, now);
    } else {
      assert At(s, task.id, AtHandler(h));
    }
  }

  /** A handler that has inserted nothing does not move the task of that key. */
  lemma BystanderMove(s: Node, h: nat, now: int)
    requires Placed(s) && Known(s) && Enabled(s, Handle(h, now)) && Fresh(s, Handle(h, now))
    requires s.handlers[h].Looking? || s.handlers[h].Saving? || s.handlers[h].Rechecking?
    ensures var id, next := s.handlers[h].task.id, AfterHandle(s, h, now);
      && (id in CountedIds(next) <==> id in CountedIds(s))
      && (id in HeldIds(next) <==> id in HeldIds(s))
      && next.pending == s.pending && next.ledger == s.ledger
  {
    var id := s.handlers[h].task.id;
    if id in s.past.place {
      assert Located(s, id);
    }
    assert id in s.past.place ==> s.past.place[id] != AtHandler(h);
    hide Placed, Ids, DistinctIds, SamePayload, AfterHold, AfterRelease;
    if s.handlers[h].Saving? {
      SavingMove(s, h, now);
    }
  }

  /** An inserted task is at a place of its own, not yet counted or held. */
  lemma SavingMove(s: Node, h: nat, now: int)
    requires Known(s) && h in s.handlers && s.handlers[h].Saving? && Fresh(s, Handle(h, now))
    requires s.handlers[h].task.id in s.past.place ==> s.past.place[s.handlers[h].task.id] != AtHandler(h)
    ensures var id, next := s.handlers[h].task.id, AfterHandle(s, h, now);
      && (id in CountedIds(next) <==> id in CountedIds(s))
      && (id in HeldIds(next) <==> id in HeldIds(s))
  {
  }

  lemma OneMoved(before: set<string>, after: set<string>, id: string)
    requires forall other :: other != id ==> (other in after <==> other in before)
    ensures after == if id in after then before + {id} else before - {id}
  {
  }

  lemma HandleKeepsConserved(s: Node, h: nat, now: int)
    requires Accounted(s) && Enabled(s, Handle(h, now)) && Fresh(s, Handle(h, now))
    ensures Conserved(AfterHandle(s, h, now))
  {
    hide AfterHandle, CountedIds, HeldIds, Placed, Known, Responsible;
    HandleMoves(s, h, now);
    OwnMove(s, h, now);
    var next, id := AfterHandle(s, h, now), s.handlers[h].task.id;
    forall other | other != id
      ensures (other in CountedIds(next) <==> other in CountedIds(s)) && (other in HeldIds(next) <==> other in HeldIds(s))
    {
      OthersUnmoved(s, h, now, other);
    }
    OneMoved(CountedIds(s), CountedIds(next), id);
    OneMoved(HeldIds(s), HeldIds(next), id);
    OneMoveTotals(CountedIds(s), CountedIds(next), id);
  }

  lemma OneMoveTotals(before: set<string>, after: set<string>, id: string)
    requires after == if id in after then before + {id} else before - {id}
    ensures |after| == |before| + (if id in after && id !in before then 1 else if id !in after && id in before then -1 else 0)
  {
    if id in after {
      if id in before {
        assert after == before;
      }
    } else if id !in before {
      assert after == before;
    }
  }

  lemma WorkKeepsConserved(s: Node, outcome: Outcome, sendOk: bool, now: int)
    requires Accounted(s) && s.worker.Busy? && s.mode.Up?
    ensures Conserved(AfterWork(s, outcome, sendOk, now))
  {
    var next, id := AfterWork(s, outcome, sendOk, now), s.worker.task.id;
    LedgerKeys(s.ledger, id, None, None, now as real);
    hide Ids, DistinctIds, AfterRelease, Ledger.AfterStart, BuildWire, Located;
    assert At(s, id, AtWorker);
    if s.worker.phase == Release {
      ReleaseMoves(s, outcome, sendOk, now);
    } else {
      WorkKeepsPlaces(s, outcome, sendOk, now);
      WorkCounts(s, outcome, sendOk, now);
    }
  }

  lemma OthersAtWorker(s: Node, id: string)
    requires Placed(s) && s.worker.Busy? && id in s.past.place && s.past.place[id] == AtWorker
    ensures id == s.worker.task.id
  {
    assert Located(s, id);
  }

  lemma ReleaseMoves(s: Node, outcome: Outcome, sendOk: bool, now: int)
    requires Accounted(s) && s.worker.Busy? && s.worker.phase == Release && s.mode.Up?
    ensures Conserved(AfterWork(s, outcome, sendOk, now))
  {
    var next, id := AfterWork(s, outcome, sendOk, now), s.worker.task.id;
    LedgerKeys(s.ledger, id, None, None, now as real);
    assert At(s, id, AtWorker);
    forall other | other in s.past.place && s.past.place[other] == AtWorker ensures other == id {
      OthersAtWorker(s, other);
    }
    hide Placed, Known, AfterRelease;
    ReleasedIsConserved(s, next, id);
  }

  /** The task at the worker, already uncounted, gives its ledger entry back. */
  lemma ReleasedIsConserved(s: Node, next: Node, id: string)
    requires Conserved(s) && s.mode.Up? && s.worker.Busy? && s.worker.phase == Release
    requires next == s.(worker := Idle, ledger := next.ledger, past := s.past.(place := s.past.place - {id}))
    requires next.ledger.held.Keys == s.ledger.held.Keys - {id} && At(s, id, AtWorker)
    requires forall other :: other in s.past.place && s.past.place[other] == AtWorker ==> other == id
    ensures Conserved(next)
  {
    assert CountedIds(next) == CountedIds(s);
    assert HeldIds(next) == HeldIds(s) - {id};
  }

  lemma WorkCounts(s: Node, outcome: Outcome, sendOk: bool, now: int)
    requires Accounted(s) && s.worker.Busy? && s.worker.phase != Release && s.mode.Up?
    ensures Conserved(AfterWork(s, outcome, sendOk, now))
  {
    var next, id := AfterWork(s, outcome, sendOk, now), s.worker.task.id;
    WorkKeepsPlaces(s, outcome, sendOk, now);
    WorkTotals(s, outcome, sendOk, now);
    assert At(s, id, AtWorker);
    forall other | other in s.past.place && s.past.place[other] == AtWorker ensures other == id {
      OthersAtWorker(s, other);
    }
    hide AfterWork, Placed, Known;
    assert HeldIds(next) == HeldIds(s);
    if s.worker.phase == Uncount {
      assert CountedIds(next) == CountedIds(s) - {id};
    } else {
      assert CountedIds(next) == CountedIds(s);
    }
  }

  lemma WorkTotals(s: Node, outcome: Outcome, sendOk: bool, now: int)
    requires s.worker.Busy? && s.worker.phase != Release
    ensures var next := AfterWork(s, outcome, sendOk, now);
      && next.pending == s.pending - (if s.worker.phase == Uncount then 1 else 0)
      && next.ledger.held.Keys == s.ledger.held.Keys
      && (next.worker.phase == Release <==> s.worker.phase == Uncount)
  {
    LedgerKeys(s.ledger, s.worker.task.id, None, None, now as real);
    hide BuildWire, Ledger.AfterStart;
  }

  lemma ReceiveKeepsConserved(s: Node)
    requires Accounted(s) && s.queue != [] && s.worker.Idle?
    ensures Conserved(AfterReceive(s))
  {
    var next, id := AfterReceive(s), s.queue[0].id;
    IdsTail(s.queue);
    assert At(s, id, InQueue);
    forall other | other in s.past.place ensures s.past.place[other] != AtWorker {
      assert Located(s, other);
    }
    hide Ids, DistinctIds, Placed, Known;
    assert CountedIds(next) == CountedIds(s);
    assert HeldIds(next) == HeldIds(s);
  }

  lemma RecoverKeepsConserved(s: Node)
    requires Accounted(s) && CanRecover(s)
    ensures Conserved(AfterRecover(s))
  {
    var next, rest := AfterRecover(s), s.mode.rest;
    forall other | other in s.past.place && s.past.place[other] == InRecovery ensures other in Ids(rest) {
      assert Located(s, other);
    }
    if rest == [] {
      assert Ids(rest) == {};
      assert CountedIds(next) == CountedIds(s);
      assert HeldIds(next) == HeldIds(s);
    } else {
      IdsTail(rest);
      assert At(s, rest[0].id, InRecovery);
      LedgerKeys(s.ledger, rest[0].id, rest[0].parent, rest[0].budget, 0.0);
      RecoverHeadConserved(s);
    }
  }

  lemma RecoverHeadConserved(s: Node)
    requires Conserved(s) && CanRecover(s) && s.mode.rest != []
    requires At(s, s.mode.rest[0].id, InRecovery)
    requires forall other :: other in s.past.place && s.past.place[other] == InRecovery ==> other in Ids(s.mode.rest)
    requires Ids(s.mode.rest[1..]) == Ids(s.mode.rest) - {s.mode.rest[0].id}
    requires AfterHold(s.ledger, s.mode.rest[0].id, s.mode.rest[0].parent, s.mode.rest[0].budget).held.Keys == s.ledger.held.Keys + {s.mode.rest[0].id}
    ensures Conserved(AfterRecover(s))
  {
    hide AfterHold, DistinctIds;
    var next, rest := AfterRecover(s), s.mode.rest;
    assert CountedIds(next) == CountedIds(s);
    if s.mode.headHeld {
      RecoveredHeadIsHeld(s);
    } else {
      hide Ids;
      assert HeldIds(next) == HeldIds(s) + {rest[0].id};
    }
  }

  lemma RecoveredHeadIsHeld(s: Node)
    requires CanRecover(s) && s.mode.rest != [] && s.mode.headHeld
    requires At(s, s.mode.rest[0].id, InRecovery)
    requires forall other :: other in s.past.place && s.past.place[other] == InRecovery ==> other in Ids(s.mode.rest)
    requires Ids(s.mode.rest[1..]) == Ids(s.mode.rest) - {s.mode.rest[0].id}
    ensures HeldIds(AfterRecover(s)) == HeldIds(s)
  {
    hide AfterHold, DistinctIds;
    var rest := s.mode.rest;
    if rest[1..] != [] {
      assert rest[1..][0].id in Ids(rest[1..]);
    }
  }

  lemma BootKeepsConserved(s: Node, rows: seq<Task>)
    requires Accounted(s) && s.mode.Down? && ListsPending(rows, s.tables.tasks)
    ensures Conserved(AfterBoot(s, rows))
  {
    DistinctCount(rows);
    var next := AfterBoot(s, rows);
    assert CountedIds(next) == Ids(rows);
    assert HeldIds(next) == {};
  }

  // ---------------------------------------------------------------------
  // Every run
  // ---------------------------------------------------------------------

  lemma HandleKeepsKnown(s: Node, h: nat, now: int)
    requires Placed(s) && Known(s) && Staged(s) && Enabled(s, Handle(h, now)) && Fresh(s, Handle(h, now))
    ensures Known(AfterHandle(s, h, now)) && Staged(AfterHandle(s, h, now))
  {
    HandleAccepts(s, h, now);
    HandleMoves(s, h, now);
    hide AfterHandle, Placed, Ids, DistinctIds;
  }

  lemma HandleAccepts(s: Node, h: nat, now: int)
    requires h in s.handlers
    ensures var id, next := s.handlers[h].task.id, AfterHandle(s, h, now);
      && s.past.accepted <= next.past.accepted
      && next.tables.tasks.Keys <= s.tables.tasks.Keys + {id}
      && (id in next.tables.tasks && id !in s.tables.tasks ==> id in next.past.accepted)
      && (id in next.past.place && id !in s.past.place ==> id in next.past.accepted || Responsible(s.handlers[h]))
  {
    hide AfterHold, AfterRelease, SamePayload;
  }

  lemma SameProcessesKeepAccounted(s: Node, next: Node)
    requires Accounted(s)
    requires next.handlers == s.handlers && next.queue == s.queue && next.mode == s.mode && next.worker == s.worker
    requires next.past.place == s.past.place && next.past.accepted == s.past.accepted
    requires next.pending == s.pending && next.ledger == s.ledger
    requires next.tables.tasks.Keys <= s.tables.tasks.Keys
    ensures Accounted(next)
  {
    SamePlaces(s, next);
    hide Placed, Ids, DistinctIds;
    assert CountedIds(next) == CountedIds(s);
    assert HeldIds(next) == HeldIds(s);
  }

  lemma RetryKeepsAccounted(s: Node, sendOk: bool)
    requires Accounted(s) && Enabled(s, Resend(sendOk))
    ensures Accounted(AfterRetry(s, sendOk))
  {
    hide Accounted;
    SameProcessesKeepAccounted(s, AfterRetry(s, sendOk));
  }

  /** Steps that touch neither a task's place nor a counter. */
  lemma StillStepKeepsAccounted(s: Node, step: Step)
    requires Accounted(s) && Enabled(s, step)
    requires step.CloseWorker? || step.List? || step.Prune?
    ensures Accounted(Apply(s, step))
  {
    hide Accounted, ListsResults;
    SameProcessesKeepAccounted(s, Apply(s, step));
  }

  lemma DispatchKeepsAccounted(s: Node, h: nat, task: Task)
    requires Accounted(s) && s.mode.Up? && h !in s.handlers
    ensures Accounted(SetHandler(s, h, Looking(task)))
  {
    var next := SetHandler(s, h, Looking(task));
    hide Ids, DistinctIds;
    forall id | id in s.past.place ensures Located(next, id) && (Counts(next, id) == Counts(s, id)) && (Holds(next, id) == Holds(s, id)) {
      assert Located(s, id);
    }
    assert CountedIds(next) == CountedIds(s);
    assert HeldIds(next) == HeldIds(s);
  }

  lemma CrashKeepsAccounted(s: Node)
    requires Accounted(s)
    ensures Accounted(AfterCrash(s))
  {
  }

  lemma StepKeepsAccounted(s: Node, step: Step)
    requires Accounted(s) && Enabled(s, step) && Fresh(s, step)
    ensures Accounted(Apply(s, step))
  {
    hide Placed, Conserved, Fresh, AfterHandle, AfterWork, AfterRetry;
    match step
    case Dispatch(h, task) => DispatchKeepsAccounted(s, h, task);
    case Handle(h, now) =>
      HandleKeepsPlaced(s, h, now);
      HandleKeepsKnown(s, h, now);
      HandleKeepsConserved(s, h, now);
    case Work(outcome, sendOk, now) => WorkKeepsAccounted(s, outcome, sendOk, now);
    case Receive =>
      ReceiveKeepsPlaced(s);
      ReceiveKeepsConserved(s);
      ReceiveKeepsKnown(s);
    case Resend(sendOk) => RetryKeepsAccounted(s, sendOk);
    case Crash => CrashKeepsAccounted(s);
    case Boot(rows) =>
      BootKeepsPlaced(s, rows);
      BootKeepsConserved(s, rows);
    case Recover =>
      RecoverKeepsPlaced(s);
      RecoverKeepsConserved(s);
      RecoverKeepsKnown(s);
    case _ => StillStepKeepsAccounted(s, step);
  }

  lemma WorkKeepsAccounted(s: Node, outcome: Outcome, sendOk: bool, now: int)
    requires Accounted(s) && s.worker.Busy? && s.mode.Up?
    ensures Accounted(AfterWork(s, outcome, sendOk, now))
  {
    WorkKeepsPlaced(s, outcome, sendOk, now);
    WorkKeepsConserved(s, outcome, sendOk, now);
    hide Placed, Conserved;
    if s.worker.phase != Release {
      WorkKeepsPlaces(s, outcome, sendOk, now);
      hide AfterWork;
    } else {
      hide AfterRelease;
    }
  }

  lemma ReceiveKeepsKnown(s: Node)
    requires Placed(s) && Known(s) && Staged(s) && s.queue != [] && s.mode.Up?
    ensures Known(AfterReceive(s)) && Staged(AfterReceive(s))
  {
    IdsTail(s.queue);
    assert At(s, s.queue[0].id, InQueue);
    hide Ids, DistinctIds;
  }

  lemma RecoverKeepsKnown(s: Node)
    requires Placed(s) && Known(s) && Staged(s) && CanRecover(s)
    ensures Known(AfterRecover(s)) && Staged(AfterRecover(s))
  {
    hide AfterHold;
    if s.mode.rest != [] {
      IdsTail(s.mode.rest);
      assert At(s, s.mode.rest[0].id, InRecovery);
    }
    hide Ids, DistinctIds;
  }

  ghost predicate FreshRun(s: Node, steps: seq<Step>)
    decreases |steps|
  {
    steps == [] || (Fresh(s, steps[0]) && FreshRun(Apply(s, steps[0]), steps[1..]))
  }

  lemma {:induction false} RunKeepsAccounted(s: Node, steps: seq<Step>)
    requires Accounted(s) && Run(s, steps) && FreshRun(s, steps)
    ensures Accounted(RunTo(s, steps))
    decreases |steps|
  {
    hide Accounted, Fresh, Enabled, Apply;
    if steps != [] {
      StepKeepsAccounted(s, steps[0]);
      RunKeepsAccounted(Apply(s, steps[0]), steps[1..]);
    }
  }

  lemma InitiallyAccounted()
    ensures Accounted(INITIAL)
  {
  }

  /** The tasks between the counter and the ledger, on the way in. */
  ghost predicate EnteringGap(s: Node, id: string) {
    || (exists h :: h in s.handlers && s.handlers[h].Holding? && s.handlers[h].task.id == id)
    || (s.mode.Recovering? && id in Ids(s.mode.rest))
  }

  /** The tasks between the counter and the ledger, on the way out. */
  ghost predicate LeavingGap(s: Node, id: string) {
    || (exists h :: h in s.handlers && s.handlers[h].Letting? && s.handlers[h].task.id == id)
    || (s.worker.Busy? && s.worker.phase == Release && s.worker.task.id == id)
  }

  lemma GapsExplain(s: Node, id: string)
    requires Accounted(s)
    ensures id in CountedIds(s) && id !in HeldIds(s) ==> EnteringGap(s, id)
    ensures id in HeldIds(s) && id !in CountedIds(s) ==> LeavingGap(s, id)
  {
    hide DistinctIds, Ids;
    if id in s.past.place {
      assert Located(s, id);
      match s.past.place[id]
      case AtHandler(h) => assert h in s.handlers && s.handlers[h].task.id == id;
      case _ =>
    }
  }

  /**
   In every reachable state of a running node the counter is the number of
   counted tasks, so it never underflows, and the ledger holds the same tasks
   up to those inside a gap.
   */
  lemma CounterMatchesLedger(steps: seq<Step>)
    requires Run(INITIAL, steps) && FreshRun(INITIAL, steps)
    ensures var s := RunTo(INITIAL, steps);
      !s.mode.Down? ==>
        && s.pending == |CountedIds(s)| >= 0
        && (forall id :: id in CountedIds(s) && id !in s.ledger.held ==> EnteringGap(s, id))
        && (forall id :: id in s.ledger.held && id !in CountedIds(s) ==> LeavingGap(s, id))
  {
    InitiallyAccounted();
    RunKeepsAccounted(INITIAL, steps);
    var s := RunTo(INITIAL, steps);
    forall id ensures (id in CountedIds(s) && id !in HeldIds(s) ==> EnteringGap(s, id)) && (id in HeldIds(s) && id !in CountedIds(s) ==> LeavingGap(s, id)) {
      GapsExplain(s, id);
    }
    hide Run, RunTo, CountedIds, HeldIds, EnteringGap, LeavingGap, Placed;
    assert forall id :: id in s.ledger.held <==> id in s.ledger.held.Keys;
  }

  /** With no process inside a gap, the counter is the number of held entries. */
  lemma QuietCounterIsHeld(s: Node)
    requires Accounted(s) && !s.mode.Down?
    requires forall id :: !EnteringGap(s, id) && !LeavingGap(s, id)
    ensures s.pending == |s.ledger.held|
  {
    forall id ensures id in CountedIds(s) <==> id in HeldIds(s) {
      GapsExplain(s, id);
    }
    hide CountedIds, HeldIds, EnteringGap, LeavingGap, Placed;
    assert CountedIds(s) == HeldIds(s);
    assert |s.ledger.held| == |s.ledger.held.Keys|;
  }
}

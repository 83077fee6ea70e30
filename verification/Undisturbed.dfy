/**
 The state machine of the task lifecycle, stepped without interference, does
 what the handlers' code does in one call (src/application/accept_task.rs,
 worker.rs, result_outbox.rs).
 */
module Undisturbed {
  import opened Wrappers
  import opened Ledger
  import opened Storage
  import opened Lifecycle
  import opened Application

  function Repeat(step: Step, k: nat): (steps: seq<Step>)
    ensures |steps| == k
  {
    if k == 0 then [] else [step] + Repeat(step, k - 1)
  }

  /** `k` such steps in a row are possible and lead to `end`. */
  ghost predicate Leads(s: Node, step: Step, k: nat, end: Node) {
    Run(s, Repeat(step, k)) && RunTo(s, Repeat(step, k)) == end
  }

  lemma Stays(s: Node, step: Step)
    ensures Leads(s, step, 0, s)
  {
  }

  lemma OneMore(s: Node, step: Step, k: nat, end: Node)
    requires Enabled(s, step) && Leads(Apply(s, step), step, k, end)
    ensures Leads(s, step, k + 1, end)
  {
    hide Enabled, Apply;
    assert Repeat(step, k + 1)[0] == step && Repeat(step, k + 1)[1..] == Repeat(step, k);
  }

  // ---------------------------------------------------------------------
  // One dispatch
  // ---------------------------------------------------------------------

  /** The task is inserted, counted and held, and the handler is about to send it. */
  ghost function BeforeSend(s: Node, h: nat, task: Task, now: int): Node {
    s.(handlers := s.handlers[h := Handler.Sending(task)],
       tables := s.tables.(tasks := s.tables.tasks[task.id := TaskRow(task, Pending, now)]),
       pending := s.pending + 1,
       ledger := AfterHold(s.ledger, task.id, task.parent, task.budget),
       past := s.past.(accepted := s.past.accepted + {task.id}, inserts := s.past.inserts + multiset{task.id},
                       place := s.past.place[task.id := AtHandler(h)]))
  }

  lemma InsertSteps(s: Node, h: nat, task: Task, now: int, k: nat, end: Node)
    requires s.mode.Up? && h in s.handlers && s.handlers[h] == Looking(task) && task.id !in s.tables.tasks
    requires Leads(BeforeSend(s, h, task, now), Handle(h, now), k, end)
    ensures Leads(s, Handle(h, now), k + 4, end)
  {
    hide Leads, AfterHold;
    var step := Handle(h, now);
    var saving := Apply(s, step);
    assert saving == SetHandler(s, h, Saving(task));
    var counting := Apply(saving, step);
    assert counting.handlers[h] == Counting(task);
    assert SetHandler(counting, h, Handler.Sending(task)).(
      pending := counting.pending + 1, ledger := AfterHold(counting.ledger, task.id, task.parent, task.budget)) == BeforeSend(s, h, task, now);
    CountSteps(counting, h, task, now, k, end);
    OneMore(saving, step, k + 2, end);
    OneMore(s, step, k + 3, end);
  }

  lemma CountSteps(s: Node, h: nat, task: Task, now: int, k: nat, end: Node)
    requires s.mode.Up? && h in s.handlers && s.handlers[h] == Counting(task)
    requires Leads(SetHandler(s, h, Handler.Sending(task)).(pending := s.pending + 1, ledger := AfterHold(s.ledger, task.id, task.parent, task.budget)),
                   Handle(h, now), k, end)
    ensures Leads(s, Handle(h, now), k + 2, end)
  {
    hide Leads, AfterHold;
    var step := Handle(h, now);
    var holding := Apply(s, step);
    assert holding == SetHandler(s, h, Holding(task)).(pending := s.pending + 1);
    var sending := SetHandler(s, h, Handler.Sending(task)).(pending := s.pending + 1, ledger := AfterHold(s.ledger, task.id, task.parent, task.budget));
    assert Apply(holding, step) == sending;
    OneMore(holding, step, k, end);
    OneMore(s, step, k + 1, end);
  }

  /**
   A new task, dispatched alone, is inserted, counted, held and queued; with the
   worker gone it is inserted, but neither counted nor held, and told so.
   */
  lemma DispatchAlone(s: Node, h: nat, task: Task, now: int) returns (k: nat, end: Node)
    requires s.mode.Up? && h !in s.handlers && task.id !in s.tables.tasks && (s.open ==> |s.queue| < 100)
    ensures Leads(Apply(s, Dispatch(h, task)), Handle(h, now), k, end)
    ensures h in end.handlers && end.handlers[h] == Done(task, if s.open then Accepted else QueueFull)
    ensures end.tables == s.tables.(tasks := s.tables.tasks[task.id := TaskRow(task, Pending, now)])
    ensures end.queue == (if s.open then s.queue + [task] else s.queue)
    ensures end.pending == s.pending + (if s.open then 1 else 0)
    ensures var held := AfterHold(s.ledger, task.id, task.parent, task.budget);
      end.ledger == if s.open then held else AfterRelease(held, task.id)
  {
    hide AfterHold, AfterRelease;
    var looking, step := Apply(s, Dispatch(h, task)), Handle(h, now);
    var sending := BeforeSend(looking, h, task, now);
    var next := Apply(sending, step);
    if s.open {
      end, k := next, 1;
      Stays(end, step);
      hide Leads;
      OneMore(sending, step, 0, end);
    } else {
      assert next.handlers[h] == Uncounting(task);
      var letting := Apply(next, step);
      assert letting.handlers[h] == Letting(task);
      end, k := Apply(letting, step), 3;
      Stays(end, step);
      hide Leads;
      OneMore(letting, step, 0, end);
      OneMore(next, step, 1, end);
      OneMore(sending, step, 2, end);
    }
    InsertSteps(looking, h, task, now, k, end);
    k := k + 4;
  }

  // ---------------------------------------------------------------------
  // One processed task
  // ---------------------------------------------------------------------

  /** The worker stands before its status update. */
  lemma ComputeSteps(s: Node, outcome: Outcome, sendOk: bool, now: int, k: nat, end: Node)
    requires s.mode.Up? && s.open && s.worker.Busy? && s.worker.phase == Start
    requires Leads(s.(ledger := Ledger.AfterStart(s.ledger, s.worker.task.id, now as real),
                      worker := s.worker.(phase := Mark, payload := PayloadOf(outcome))), Step.Work(outcome, sendOk, now), k, end)
    ensures Leads(s, Step.Work(outcome, sendOk, now), k + 2, end)
  {
    hide Leads, Ledger.AfterStart, UpdateStatus;
    var step := Step.Work(outcome, sendOk, now);
    var computing := Apply(s, step);
    OneMore(computing, step, k, end);
    OneMore(s, step, k + 1, end);
  }

  /** The worker stands before its delivery: the row is terminal and the result stored. */
  lemma StoreSteps(s: Node, outcome: Outcome, sendOk: bool, now: int, k: nat, end: Node)
    requires s.mode.Up? && s.open && s.worker.Busy? && s.worker.phase == Mark && s.worker.payload == PayloadOf(outcome)
    requires var id, status := s.worker.task.id, StatusOf(PayloadOf(outcome));
      Leads(s.(tables := UpdateStatus(UpsertResult(UpdateStatus(s.tables, id, status), id, WireOf(id, outcome), now), id, status),
               worker := s.worker.(phase := Deliver),
               past := s.past.(stored := s.past.stored + {id})), Step.Work(outcome, sendOk, now), k, end)
    ensures Leads(s, Step.Work(outcome, sendOk, now), k + 3, end)
  {
    hide Leads, UpdateStatus, UpsertResult;
    var step, id := Step.Work(outcome, sendOk, now), s.worker.task.id;
    assert BuildWire(id, PayloadOf(outcome)) == Ok(WireOf(id, outcome));
    var storing := Apply(s, step);
    var remarking := Apply(storing, step);
    assert Apply(remarking, step).worker.phase == Deliver;
    OneMore(remarking, step, k, end);
    OneMore(storing, step, k + 1, end);
    OneMore(s, step, k + 2, end);
  }

  /** The worker counts the task off and lets it go. */
  lemma LeaveSteps(s: Node, outcome: Outcome, sendOk: bool, now: int) returns (end: Node)
    requires s.mode.Up? && s.open && s.worker.Busy? && s.worker.phase == Uncount
    ensures Leads(s, Step.Work(outcome, sendOk, now), 2, end)
    ensures end.worker.Idle? && end.tables == s.tables && end.pending == s.pending - 1
    ensures end.ledger == AfterRelease(s.ledger, s.worker.task.id) && end.queue == s.queue && end.mode == s.mode && end.open == s.open
  {
    hide AfterRelease;
    var step := Step.Work(outcome, sendOk, now);
    var releasing := Apply(s, step);
    end := Apply(releasing, step);
    Stays(end, step);
    hide Leads;
    OneMore(releasing, step, 0, end);
    OneMore(s, step, 1, end);
  }

  lemma DeliverSteps(s: Node, outcome: Outcome, sendOk: bool, now: int) returns (k: nat, end: Node)
    requires s.mode.Up? && s.open && s.worker.Busy? && s.worker.phase == Deliver
    ensures Leads(s, Step.Work(outcome, sendOk, now), k, end)
    ensures end.worker.Idle? && end.pending == s.pending - 1 && end.ledger == AfterRelease(s.ledger, s.worker.task.id)
    ensures end.tables == (if sendOk then DeleteResult(s.tables, s.worker.task.id) else s.tables)
  {
    hide Leads, AfterRelease, DeleteResult;
    var step := Step.Work(outcome, sendOk, now);
    var next := Apply(s, step);
    if sendOk {
      var deleted := Apply(next, step);
      end := LeaveSteps(deleted, outcome, sendOk, now);
      OneMore(next, step, 2, end);
      OneMore(s, step, 3, end);
      k := 4;
    } else {
      end := LeaveSteps(next, outcome, sendOk, now);
      OneMore(s, step, 2, end);
      k := 3;
    }
  }

  /**
   A task worked on alone leaves what `process_task` leaves: its tables, one
   pending task less, and a ledger in which it was started and released.
   */
  lemma WorkAlone(s: Node, outcome: Outcome, sendOk: bool, now: int) returns (k: nat, end: Node)
    requires s.mode.Up? && s.open && s.worker.Busy? && s.worker.phase == Start
    ensures Leads(s, Step.Work(outcome, sendOk, now), k, end) && end.worker.Idle?
    ensures end.tables == AfterProcessing(s.tables, s.worker.task.id, outcome, sendOk, now)
    ensures end.pending == s.pending - 1
    ensures end.ledger == AfterRelease(Ledger.AfterStart(s.ledger, s.worker.task.id, now as real), s.worker.task.id)
  {
    hide Leads, AfterRelease, Ledger.AfterStart, DeleteResult, UpdateStatus, UpsertResult;
    var id, status := s.worker.task.id, StatusOf(PayloadOf(outcome));
    var marking := s.(ledger := Ledger.AfterStart(s.ledger, id, now as real), worker := s.worker.(phase := Mark, payload := PayloadOf(outcome)));
    var delivering := marking.(
      tables := UpdateStatus(UpsertResult(UpdateStatus(s.tables, id, status), id, WireOf(id, outcome), now), id, status),
      worker := marking.worker.(phase := Deliver),
      past := s.past.(stored := s.past.stored + {id}));
    assert BuildWire(id, PayloadOf(outcome)) == Ok(WireOf(id, outcome));
    k, end := DeliverSteps(delivering, outcome, sendOk, now);
    StoreSteps(marking, outcome, sendOk, now, k, end);
    ComputeSteps(s, outcome, sendOk, now, k + 3, end);
    k := k + 5;
  }

  // ---------------------------------------------------------------------
  // One retry round
  // ---------------------------------------------------------------------

  /** Each entry is sent, and then deleted or noted. */
  function RoundSteps(acks: seq<bool>): seq<Step> {
    if acks == [] then [] else [Resend(acks[0]), Resend(true)] + RoundSteps(acks[1..])
  }

  lemma EntrySteps(s: Node, entries: seq<Entry>, ack: bool)
    requires s.mode.Up? && entries != [] && s.retry == Resending(entries)
    ensures Enabled(s, Resend(ack)) && Enabled(Apply(s, Resend(ack)), Resend(true))
    ensures var next := Apply(Apply(s, Resend(ack)), Resend(true));
      && next.mode.Up? && next.retry == (if |entries| > 1 then Resending(entries[1..]) else Resting)
      && next.tables == (if ack then DeleteResult(s.tables, entries[0].id) else CountAttempt(s.tables, entries[0].rowId))
  {
    hide DeleteResult, CountAttempt;
  }

  lemma EntryRound(before: map<string, ResultRow>, t: TaskTables, entries: seq<Entry>, acks: seq<bool>, i: nat)
    requires RowIdsUnique(t) && ListsResults(entries, before) && |acks| == |entries| && i < |entries|
    requires RoundSoFar(before, t.results, entries, acks, i)
    ensures var next := if acks[i] then DeleteResult(t, entries[i].id) else CountAttempt(t, entries[i].rowId);
      RowIdsUnique(next) && RoundSoFar(before, next.results, entries, acks, i + 1)
  {
    var id := entries[i].id;
    UpsertKeepsRowIdsUnique(t, id, entries[i].wire, 0);
    CountAttemptTouchesOneRow(t, id);
    var next := if acks[i] then DeleteResult(t, id) else CountAttempt(t, entries[i].rowId);
    RoundStep(before, t.results, next.results, entries, acks, i);
  }

  /** The retry loop, stepped alone over what it listed, leaves what one round of its code leaves, and rests. */
  lemma {:induction false} RoundAlone(s: Node, before: map<string, ResultRow>, entries: seq<Entry>, acks: seq<bool>, i: nat)
    requires s.mode.Up? && RowIdsUnique(s.tables) && ListsResults(entries, before) && |acks| == |entries| && i <= |entries|
    requires s.retry == (if i < |entries| then Resending(entries[i..]) else Resting)
    requires RoundSoFar(before, s.tables.results, entries, acks, i)
    ensures Run(s, RoundSteps(acks[i..]))
    ensures var end := RunTo(s, RoundSteps(acks[i..])); end.retry.Resting? && RoundSoFar(before, end.tables.results, entries, acks, |entries|)
    decreases |entries| - i
  {
    hide Enabled, Apply, RoundSoFar, RowIdsUnique, ListsResults, DeleteResult, CountAttempt;
    if i < |entries| {
      var first, second := Resend(acks[i]), Resend(true);
      var sent := Apply(s, first);
      var next := Apply(sent, second);
      EntrySteps(s, entries[i..], acks[i]);
      EntryRound(before, s.tables, entries, acks, i);
      assert entries[i..][1..] == entries[i + 1..] && acks[i..][1..] == acks[i + 1..];
      RoundAlone(next, before, entries, acks, i + 1);
      var rest := RoundSteps(acks[i + 1..]);
      assert RoundSteps(acks[i..]) == [first, second] + rest;
      assert ([first, second] + rest)[1..] == [second] + rest && ([second] + rest)[1..] == rest;
      assert Run(sent, [second] + rest) && RunTo(sent, [second] + rest) == RunTo(next, rest);
    } else {
      assert acks[i..] == [];
    }
  }

  /** There always is a list of the rows for the loop to work on. */
  lemma {:induction false} EveryTableIsListed(results: map<string, ResultRow>) returns (entries: seq<Entry>)
    ensures ListsResults(entries, results)
    ensures forall i :: 0 <= i < |entries| ==> entries[i].wire == results[entries[i].id].wire
    decreases |results|
  {
    if results == map[] {
      entries := [];
    } else {
      var id :| id in results;
      var fewer := results - {id};
      assert fewer.Keys == results.Keys - {id};
      var others := EveryTableIsListed(fewer);
      entries := [Entry(results[id].rowId, id, results[id].wire)] + others;
    }
  }

  /** So a resting loop can always begin a round with every stored result. */
  lemma RoundBegins(s: Node) returns (entries: seq<Entry>)
    requires s.mode.Up? && s.retry.Resting? && s.tables.results != map[]
    ensures ListsResults(entries, s.tables.results) && Enabled(s, List(entries))
    ensures Apply(s, List(entries)) == s.(retry := Resending(entries))
  {
    entries := EveryTableIsListed(s.tables.results);
  }

  /** Once the worker is gone, a new dispatch is told so and queues nothing. */
  lemma DispatchWithoutWorker(s: Node, h: nat, task: Task, now: int) returns (k: nat, end: Node)
    requires s.mode.Up? && h !in s.handlers && task.id !in s.tables.tasks
    ensures Enabled(s, CloseWorker)
    ensures Leads(Apply(Apply(s, CloseWorker), Dispatch(h, task)), Handle(h, now), k, end)
    ensures h in end.handlers && end.handlers[h] == Done(task, QueueFull) && end.queue == s.queue && end.pending == s.pending
  {
    hide Leads;
    k, end := DispatchAlone(Apply(s, CloseWorker), h, task, now);
  }

  /** A handler whose insert was refused, but whose rival's row is gone again, refuses too. */
  lemma RivalsRowIsGone(s: Node, h: nat, now: int)
    requires h in s.handlers && s.handlers[h].Rechecking? && s.handlers[h].task.id !in s.tables.tasks
    ensures AfterHandle(s, h, now) == s.(handlers := s.handlers[h := Done(s.handlers[h].task, Refused)])
  {
  }

  /** Pruning takes exactly the terminal rows older than the cutoff whose results are not waiting, and nothing else. */
  lemma PruneAlone(s: Node, cutoff: int)
    requires s.mode.Up?
    ensures Enabled(s, Prune(cutoff))
    ensures var next := Apply(s, Prune(cutoff));
      && next == s.(tables := s.tables.(tasks := next.tables.tasks))
      && (forall id :: id in next.tables.tasks <==>
            id in s.tables.tasks && (s.tables.tasks[id].status == Pending || s.tables.tasks[id].createdAt >= cutoff || id in s.tables.results))
      && (forall id :: id in next.tables.tasks ==> next.tables.tasks[id] == s.tables.tasks[id])
  {
  }
}

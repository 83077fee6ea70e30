/**
 The life of one row of the PCS outbox (src/application/pcs_outbox.rs): exactly
 which steps take a request, a bundle or a nomination away, and what remains
 when writes find the row as they read it.
 */
module PcsLifetime {
  import opened Wrappers
  import opened Storage
  import opened PcsOutbox

  predicate Reads(phase: Phase) {
    phase.RetainRead? || phase.RetainWrite? || phase.RequestRead? || phase.RequestWrite? || phase.OpenCheck? || phase.OpenWrite?
  }

  /** What a process carries from its earlier steps; only the retry loop has entries to look at. */
  ghost predicate Carries(proc: Proc) {
    && (proc.looping ==> !Reads(proc.phase))
    && (proc.phase.NextEntry? ==> proc.looping)
    && match proc.phase
    case RetainWrite => proc.job == Retained(proc.job.proof, proc.seen)
    case RequestWrite => proc.seen.Some? && proc.job == proc.seen.value.job.(requested := true)
    case OpenWrite => proc.job.requested && proc.job.bundle.None?
    case Caching => proc.job.requested && proc.job.bundle.Some?
    case PruneEntry =>
      && proc.entries != [] && proc.id == proc.entries[0].id && !proc.entries[0].row.job.requested
      && proc.round.now - proc.entries[0].row.createdAt >= proc.round.ttl
    case Proving => proc.job.bundle.None?
    case _ => true
  }

  ghost predicate Honest(s: Node) {
    AllAsked(s) && forall p :: p in s.procs ==> Carries(s.procs[p])
  }

  ghost predicate CarriesOn(s: Node, p: nat, next: Node) {
    p in next.procs && Carries(next.procs[p])
  }

  predicate Proves(phase: Phase) {
    phase.Building? || phase.Proving?
  }

  /** A process comes to build or prove with the job it claimed. */
  ghost predicate ComesToProve(s: Node, p: nat, next: Node)
    requires p in s.procs
  {
    p in next.procs && (Proves(next.procs[p].phase) ==>
      && (s.procs[p].phase.Claiming? || s.procs[p].phase.Building?)
      && next.procs[p].id == s.procs[p].id && next.procs[p].job == s.procs[p].job && next.table == s.table)
  }

  lemma ReadCarries(s: Node, p: nat, w: World)
    requires p in s.procs && Reads(s.procs[p].phase) && Asked(s.procs[p]) && Carries(s.procs[p])
    ensures CarriesOn(s, p, AfterMove(s, p, w)) && ComesToProve(s, p, AfterMove(s, p, w))
  {
    hide UpsertPcs;
  }

  lemma LoopCarries(s: Node, p: nat, w: World)
    requires p in s.procs && !Reads(s.procs[p].phase) && !Inside(s.procs[p]) && Carries(s.procs[p])
    ensures CarriesOn(s, p, AfterMove(s, p, w)) && ComesToProve(s, p, AfterMove(s, p, w))
  {
    hide DeletePcsById, CountPcsAttempt;
  }

  lemma InsideCarries(s: Node, p: nat, w: World)
    requires p in s.procs && Inside(s.procs[p]) && Asked(s.procs[p]) && Carries(s.procs[p])
    ensures CarriesOn(s, p, AfterMove(s, p, w)) && ComesToProve(s, p, AfterMove(s, p, w))
  {
    if s.procs[p].phase.Building? || s.procs[p].phase.Proving? || s.procs[p].phase.Caching? {
      BuildCarries(s, p, w);
    } else {
      SendCarries(s, p, w);
    }
    hide AfterMove;
  }

  lemma BuildCarries(s: Node, p: nat, w: World)
    requires p in s.procs && (s.procs[p].phase.Building? || s.procs[p].phase.Proving? || s.procs[p].phase.Caching?)
    requires Asked(s.procs[p]) && Carries(s.procs[p])
    ensures CarriesOn(s, p, AfterMove(s, p, w)) && ComesToProve(s, p, AfterMove(s, p, w))
  {
    hide UpsertPcs;
  }

  lemma SendCarries(s: Node, p: nat, w: World)
    requires p in s.procs && Inside(s.procs[p])
    requires !s.procs[p].phase.Building? && !s.procs[p].phase.Proving? && !s.procs[p].phase.Caching?
    ensures CarriesOn(s, p, AfterMove(s, p, w)) && ComesToProve(s, p, AfterMove(s, p, w))
  {
    hide DeletePcs;
  }

  lemma MoveCarries(s: Node, p: nat, w: World)
    requires p in s.procs && Carries(s.procs[p]) && Asked(s.procs[p])
    ensures CarriesOn(s, p, AfterMove(s, p, w)) && ComesToProve(s, p, AfterMove(s, p, w))
  {
    hide AfterMove, CarriesOn, ComesToProve, Asked;
    if Reads(s.procs[p].phase) {
      ReadCarries(s, p, w);
    } else if Inside(s.procs[p]) {
      InsideCarries(s, p, w);
    } else {
      LoopCarries(s, p, w);
    }
  }

  lemma StepKeepsHonest(s: Node, step: Step)
    requires Honest(s) && Enabled(s, step)
    ensures Honest(Apply(s, step))
  {
    if step.Move? {
      EveryMoveEffect(s, step.p, step.w);
      MoveCarries(s, step.p, step.w);
      hide AfterMove, Asked, LockEffect;
      var next := AfterMove(s, step.p, step.w);
      forall q | q in next.procs ensures Carries(next.procs[q]) {
        if q != step.p {
          assert Carries(s.procs[q]);
        }
      }
    }
  }

  predicate Writes(phase: Phase) {
    phase.RetainWrite? || phase.RequestWrite? || phase.OpenWrite? || phase.Caching?
  }

  predicate Deletes(phase: Phase) {
    phase.Deleting? || phase.RefusalDeleting?
  }

  /** The one table call a step makes, if any. */
  function TableAfter(t: PcsTable, proc: Proc, w: World): PcsTable {
    if !w.storageOk then t
    else if Writes(proc.phase) then UpsertPcs(t, proc.id, proc.job, w.now)
    else if Deletes(proc.phase) then DeletePcs(t, proc.id)
    else if proc.phase.PruneEntry? && proc.entries != [] then DeletePcsById(t, proc.entries[0].row.rowId)
    else if proc.phase.Noting? && proc.entries != [] then CountPcsAttempt(t, proc.entries[0].row.rowId)
    else t
  }

  lemma MoveTable(s: Node, p: nat, w: World)
    requires p in s.procs
    ensures AfterMove(s, p, w).table == TableAfter(s.table, s.procs[p], w)
  {
    hide UpsertPcs, DeletePcs, DeletePcsById, CountPcsAttempt;
  }

  // ---------------------------------------------------------------------
  // Exactly which steps a row does not survive
  // ---------------------------------------------------------------------

  /** The step is a table call that succeeds, made by this process. */
  predicate Calls(s: Node, step: Step) {
    step.Move? && step.p in s.procs && step.w.storageOk
  }

  predicate PrunesRow(s: Node, step: Step, id: string) {
    && Calls(s, step)
    && s.procs[step.p].phase.PruneEntry? && s.procs[step.p].entries != []
    && id in s.table.rows && s.table.rows[id].rowId == s.procs[step.p].entries[0].row.rowId
  }

  predicate DeletesRow(s: Node, step: Step, id: string) {
    Calls(s, step) && Deletes(s.procs[step.p].phase) && s.procs[step.p].id == id
  }

  predicate WritesRow(s: Node, step: Step, id: string) {
    Calls(s, step) && Writes(s.procs[step.p].phase) && s.procs[step.p].id == id
  }

  /** A job of `id` that is not good is written over the row, or the row is pruned. */
  predicate Overrides(s: Node, step: Step, id: string, good: Job -> bool) {
    PrunesRow(s, step, id) || (WritesRow(s, step, id) && !good(s.procs[step.p].job))
  }

  predicate HoldsGood(s: Node, id: string, good: Job -> bool) {
    id in s.table.rows && good(s.table.rows[id].job)
  }

  /** The row is the one it was: only its job and its attempts may differ. */
  predicate SameRow(s: Node, next: Node, id: string)
    requires id in s.table.rows
  {
    id in next.table.rows && next.table.rows[id].createdAt == s.table.rows[id].createdAt && next.table.rows[id].rowId == s.table.rows[id].rowId
  }

  /**
   Whatever is asked of a job, one step leaves it in the row exactly if it does
   not override it and does not delete the row after a send.
   */
  lemma GoodSurvivesStep(s: Node, step: Step, id: string, good: Job -> bool)
    requires Enabled(s, step) && HoldsGood(s, id, good)
    ensures HoldsGood(Apply(s, step), id, good) <==> !Overrides(s, step, id, good) && !DeletesRow(s, step, id)
    ensures id in Apply(s, step).table.rows ==> SameRow(s, Apply(s, step), id)
  {
    if step.Move? {
      MoveTable(s, step.p, step.w);
      hide AfterMove;
    }
  }

  predicate Requested(job: Job) { job.requested }

  predicate RequestedBundle(job: Job) { job.requested && job.bundle.Some? }

  /** The three ways a request is taken from a row. */
  predicate TakesRequest(s: Node, step: Step, id: string) {
    || (WritesRow(s, step, id) && s.procs[step.p].phase.RetainWrite? && !s.procs[step.p].job.requested)
    || PrunesRow(s, step, id)
    || DeletesRow(s, step, id)
  }

  /**
   A request survives a step exactly if the step is no stale retain of an
   unrequested job, no prune of the row, and no deletion after a send.
   */
  lemma RequestSurvivesStep(s: Node, step: Step, id: string)
    requires Honest(s) && Enabled(s, step) && HoldsGood(s, id, Requested)
    ensures HoldsGood(Apply(s, step), id, Requested) <==> !TakesRequest(s, step, id)
  {
    GoodSurvivesStep(s, step, id, Requested);
    if WritesRow(s, step, id) {
      assert Asked(s.procs[step.p]) && Carries(s.procs[step.p]);
    }
    hide Apply, Enabled;
  }

  /** The request is there after every step of the run. */
  ghost predicate StaysRequested(s: Node, steps: seq<Step>, id: string)
    decreases |steps|
  {
    HoldsGood(s, id, Requested) && (steps == [] || StaysRequested(Apply(s, steps[0]), steps[1..], id))
  }

  ghost predicate NeverTaken(s: Node, steps: seq<Step>, id: string)
    decreases |steps|
  {
    steps == [] || (!TakesRequest(s, steps[0], id) && NeverTaken(Apply(s, steps[0]), steps[1..], id))
  }

  /** Over a whole run a request stays exactly if none of the three steps ever hits it. */
  lemma {:induction false} RequestSurvivesRun(s: Node, steps: seq<Step>, id: string)
    requires Honest(s) && Run(s, steps) && HoldsGood(s, id, Requested)
    ensures StaysRequested(s, steps, id) <==> NeverTaken(s, steps, id)
    decreases |steps|
  {
    hide Honest, HoldsGood, TakesRequest, Enabled, Apply;
    if steps != [] {
      RequestSurvivesStep(s, steps[0], id);
      StepKeepsHonest(s, steps[0]);
      if !TakesRequest(s, steps[0], id) {
        RequestSurvivesRun(Apply(s, steps[0]), steps[1..], id);
      } else {
        NotStaying(Apply(s, steps[0]), steps[1..], id);
      }
    }
  }

  lemma NotStaying(s: Node, steps: seq<Step>, id: string)
    requires Run(s, steps) && !HoldsGood(s, id, Requested)
    ensures !StaysRequested(s, steps, id)
  {
  }

  // ---------------------------------------------------------------------
  // Until an acknowledgement
  // ---------------------------------------------------------------------

  /** A process has had its send acknowledged and is about to delete the row. */
  ghost predicate DeleteAhead(s: Node, id: string) {
    exists p :: p in s.procs && Deletes(s.procs[p].phase) && s.procs[p].id == id
  }

  /** As long as the row is good, no step of the run overrides it. */
  ghost predicate NeverOverridden(s: Node, steps: seq<Step>, id: string, good: Job -> bool)
    decreases |steps|
  {
    steps == [] || (
      && (HoldsGood(s, id, good) ==> !Overrides(s, steps[0], id, good))
      && NeverOverridden(Apply(s, steps[0]), steps[1..], id, good))
  }

  ghost predicate AcksOn(s: Node, p: nat, next: Node, id: string)
    requires p in s.procs
  {
    && p in next.procs && s.acked[id] <= next.acked[id]
    && (Deletes(next.procs[p].phase) && next.procs[p].id == id ==>
          next.acked[id] > s.acked[id] || (Deletes(s.procs[p].phase) && s.procs[p].id == id))
  }

  lemma SendAcks(s: Node, p: nat, w: World, id: string)
    requires p in s.procs && Inside(s.procs[p])
    ensures AcksOn(s, p, AfterMove(s, p, w), id)
  {
    hide UpsertPcs, DeletePcs;
  }

  lemma ReadAcks(s: Node, p: nat, w: World, id: string)
    requires p in s.procs && Reads(s.procs[p].phase)
    ensures AcksOn(s, p, AfterMove(s, p, w), id)
  {
    hide UpsertPcs;
  }

  lemma LoopAcks(s: Node, p: nat, w: World, id: string)
    requires p in s.procs && !Reads(s.procs[p].phase) && !Inside(s.procs[p])
    ensures AcksOn(s, p, AfterMove(s, p, w), id)
  {
    hide DeletePcsById, CountPcsAttempt;
  }

  lemma MoveAcks(s: Node, p: nat, w: World, id: string)
    requires p in s.procs
    ensures AcksOn(s, p, AfterMove(s, p, w), id)
  {
    hide AfterMove, AcksOn;
    if Inside(s.procs[p]) {
      SendAcks(s, p, w, id);
    } else if Reads(s.procs[p].phase) {
      ReadAcks(s, p, w, id);
    } else {
      LoopAcks(s, p, w, id);
    }
  }

  /** A delete is only ever ahead because of an acknowledgement. */
  lemma StepAcks(s: Node, step: Step, id: string)
    requires Enabled(s, step)
    ensures s.acked[id] <= Apply(s, step).acked[id]
    ensures DeleteAhead(Apply(s, step), id) ==> DeleteAhead(s, id) || Apply(s, step).acked[id] > s.acked[id]
  {
    if step.Move? {
      EveryMoveEffect(s, step.p, step.w);
      MoveAcks(s, step.p, step.w, id);
      hide AfterMove, LockEffect, Deletes, Asked;
    } else {
      OtherStepAcks(s, step, id);
    }
  }

  lemma OtherStepAcks(s: Node, step: Step, id: string)
    requires Enabled(s, step) && !step.Move?
    ensures s.acked[id] <= Apply(s, step).acked[id]
    ensures DeleteAhead(Apply(s, step), id) ==> DeleteAhead(s, id)
  {
    if p :| p in Apply(s, step).procs && Deletes(Apply(s, step).procs[p].phase) && Apply(s, step).procs[p].id == id {
      assert p in s.procs && s.procs[p] == Apply(s, step).procs[p];
    }
  }

  lemma {:induction false} RunAcks(s: Node, steps: seq<Step>, id: string)
    requires Run(s, steps)
    ensures s.acked[id] <= RunTo(s, steps).acked[id]
    decreases |steps|
  {
    if steps != [] {
      StepAcks(s, steps[0], id);
      RunAcks(Apply(s, steps[0]), steps[1..], id);
    }
  }

  /**
   What a row has it keeps, in the same row, unless it is overridden, until the
   orchestrator acknowledges a send for it during this very run, or had just
   done so and the delete was already ahead.
   */
  lemma {:induction false} GoodUntilAcknowledged(s: Node, steps: seq<Step>, id: string, good: Job -> bool)
    requires Run(s, steps) && HoldsGood(s, id, good) && NeverOverridden(s, steps, id, good)
    ensures var end := RunTo(s, steps);
      (HoldsGood(end, id, good) && SameRow(s, end, id)) || end.acked[id] > s.acked[id] || DeleteAhead(s, id)
    decreases |steps|
  {
    if steps != [] {
      var next := Apply(s, steps[0]);
      GoodSurvivesStep(s, steps[0], id, good);
      StepAcks(s, steps[0], id);
      RunAcks(next, steps[1..], id);
      hide Enabled, Apply, Overrides, DeleteAhead;
      if HoldsGood(next, id, good) {
        GoodUntilAcknowledged(next, steps[1..], id, good);
      } else {
        DeleteWasAhead(s, steps[0], id);
      }
    }
  }

  lemma DeleteWasAhead(s: Node, step: Step, id: string)
    requires DeletesRow(s, step, id)
    ensures DeleteAhead(s, id)
  {
  }

  // ---------------------------------------------------------------------
  // Current reads
  // ---------------------------------------------------------------------

  ghost predicate SeenIsCurrent(s: Node, proc: Proc) {
    match Row(s, proc.id)
    case None => proc.seen.None?
    case Some(row) => proc.seen.Some? && proc.seen.value.job == row.job
  }

  /** A write to `id` follows its read with nothing in between; so does a prune its check. */
  ghost predicate Current(s: Node, step: Step, id: string) {
    && (WritesRow(s, step, id) && (s.procs[step.p].phase.RetainWrite? || s.procs[step.p].phase.RequestWrite?) ==>
          SeenIsCurrent(s, s.procs[step.p]))
    && (PrunesRow(s, step, id) ==> !s.table.rows[id].job.requested)
  }

  ghost predicate CurrentRun(s: Node, steps: seq<Step>, id: string)
    decreases |steps|
  {
    steps == [] || (Current(s, steps[0], id) && CurrentRun(Apply(s, steps[0]), steps[1..], id))
  }

  /** An open call overwrites the row of `id`. */
  predicate OpenCallWrites(s: Node, step: Step, id: string) {
    WritesRow(s, step, id) && s.procs[step.p].phase.OpenWrite?
  }

  ghost predicate NoOpenCall(s: Node, steps: seq<Step>, id: string)
    decreases |steps|
  {
    steps == [] || (!OpenCallWrites(s, steps[0], id) && NoOpenCall(Apply(s, steps[0]), steps[1..], id))
  }

  lemma CurrentKeepsRequest(s: Node, step: Step, id: string)
    requires Honest(s) && Enabled(s, step) && Current(s, step, id) && HoldsGood(s, id, Requested)
    ensures !Overrides(s, step, id, Requested)
  {
    if WritesRow(s, step, id) {
      assert Asked(s.procs[step.p]) && Carries(s.procs[step.p]);
    }
  }

  lemma CurrentKeepsBundle(s: Node, step: Step, id: string)
    requires Honest(s) && Enabled(s, step) && Current(s, step, id) && !OpenCallWrites(s, step, id)
    requires HoldsGood(s, id, RequestedBundle)
    ensures !Overrides(s, step, id, RequestedBundle)
  {
    if WritesRow(s, step, id) {
      assert Asked(s.procs[step.p]) && Carries(s.procs[step.p]);
    }
  }

  lemma {:induction false} CurrentNeverOverridesRequest(s: Node, steps: seq<Step>, id: string)
    requires Honest(s) && Run(s, steps) && CurrentRun(s, steps, id)
    ensures NeverOverridden(s, steps, id, Requested)
    decreases |steps|
  {
    hide Honest, Enabled, Apply, Overrides, Current;
    if steps != [] {
      if HoldsGood(s, id, Requested) {
        CurrentKeepsRequest(s, steps[0], id);
      }
      StepKeepsHonest(s, steps[0]);
      CurrentNeverOverridesRequest(Apply(s, steps[0]), steps[1..], id);
    }
  }

  lemma {:induction false} CurrentNeverOverridesBundle(s: Node, steps: seq<Step>, id: string)
    requires Honest(s) && Run(s, steps) && CurrentRun(s, steps, id) && NoOpenCall(s, steps, id)
    ensures NeverOverridden(s, steps, id, RequestedBundle)
    decreases |steps|
  {
    hide Honest, Enabled, Apply, Overrides, Current;
    if steps != [] {
      if HoldsGood(s, id, RequestedBundle) {
        CurrentKeepsBundle(s, steps[0], id);
      }
      StepKeepsHonest(s, steps[0]);
      CurrentNeverOverridesBundle(Apply(s, steps[0]), steps[1..], id);
    }
  }

  /** With current reads a request stays, in its row, until it is acknowledged. */
  lemma RequestedUntilAcknowledged(steps: seq<Step>, more: seq<Step>, id: string)
    requires Run(INITIAL, steps) && Run(RunTo(INITIAL, steps), more)
    requires HoldsGood(RunTo(INITIAL, steps), id, Requested) && CurrentRun(RunTo(INITIAL, steps), more, id)
    ensures var s := RunTo(INITIAL, steps);
            var end := RunTo(s, more);
      (HoldsGood(end, id, Requested) && SameRow(s, end, id)) || end.acked[id] > s.acked[id] || DeleteAhead(s, id)
  {
    var s := RunTo(INITIAL, steps);
    RunKeepsHonest(INITIAL, steps);
    CurrentNeverOverridesRequest(s, more, id);
    GoodUntilAcknowledged(s, more, id, Requested);
  }

  /** With current reads a cached bundle stays until delivery, or until an open call replaces the job. */
  lemma BundleUntilAcknowledged(steps: seq<Step>, more: seq<Step>, id: string)
    requires Run(INITIAL, steps) && Run(RunTo(INITIAL, steps), more)
    requires HoldsGood(RunTo(INITIAL, steps), id, RequestedBundle)
    requires CurrentRun(RunTo(INITIAL, steps), more, id) && NoOpenCall(RunTo(INITIAL, steps), more, id)
    ensures var s := RunTo(INITIAL, steps);
            var end := RunTo(s, more);
      (HoldsGood(end, id, RequestedBundle) && SameRow(s, end, id)) || end.acked[id] > s.acked[id] || DeleteAhead(s, id)
  {
    var s := RunTo(INITIAL, steps);
    RunKeepsHonest(INITIAL, steps);
    CurrentNeverOverridesBundle(s, more, id);
    GoodUntilAcknowledged(s, more, id, RequestedBundle);
  }

  lemma {:induction false} RunKeepsHonest(s: Node, steps: seq<Step>)
    requires Honest(s) && Run(s, steps)
    ensures Honest(RunTo(s, steps))
    decreases |steps|
  {
    hide Honest, Enabled, Apply;
    if steps != [] {
      StepKeepsHonest(s, steps[0]);
      RunKeepsHonest(Apply(s, steps[0]), steps[1..]);
    }
  }

  lemma InitiallyHonest()
    ensures Honest(INITIAL)
  {
  }

  lemma ReachedIsHonest(s: Node)
    requires Reached(s)
    ensures Honest(s) && Exclusive(s)
  {
    var steps :| Run(INITIAL, steps) && RunTo(INITIAL, steps) == s;
    hide Run, RunTo, Honest, Exclusive;
    InitiallyHonest();
    RunKeepsHonest(INITIAL, steps);
    MutualExclusionFromStart(steps);
  }

  // ---------------------------------------------------------------------
  // A request that is taken back
  // ---------------------------------------------------------------------

  /** Every call succeeds and core builds what it is asked for. */
  const FINE := World(true, true, false, Built("bundle"), 0)

  const LOST_DRAW := PcsRow(1, Job("proof", false, None, None), 0, 0)

  const WON_DRAW := PcsRow(1, Job("proof", true, None, None), 0, 0)

  /** A first result has been retained for `x`. */
  const RETAINED := Node(
    PcsTable(map["x" := LOST_DRAW], 2), {}, map[],
    map[0 := Proc("x", Finished, LOST_DRAW.job, None, false, [], NO_ROUND)], multiset{})

  lemma RetainedIsReached()
    ensures Reached(RETAINED)
  {
    hide Reached;
    StartIsReached();
    var s := INITIAL;
    Onward(s, StartRetain(0, "x", "proof"));
    s := Apply(s, StartRetain(0, "x", "proof"));
    Onward(s, Move(0, FINE));
    s := Apply(s, Move(0, FINE));
    assert s.procs[0] == Proc("x", RetainWrite, LOST_DRAW.job, None, false, [], NO_ROUND);
    Onward(s, Move(0, FINE));
    s := Apply(s, Move(0, FINE));
    assert s.procs == RETAINED.procs;
    assert s.table.rows == RETAINED.table.rows;
  }

  /** The result is sent again, and its retain has read the row. */
  const REREAD := RETAINED.(
    procs := RETAINED.procs[1 := Proc("x", RetainWrite, LOST_DRAW.job, Some(LOST_DRAW), false, [], NO_ROUND)])

  /** Before its write, a request has marked the row. */
  const RACING := REREAD.(
    table := PcsTable(map["x" := WON_DRAW], 3),
    procs := REREAD.procs[2 := Proc("x", Claiming, WON_DRAW.job, Some(LOST_DRAW), false, [], NO_ROUND)])

  lemma RereadIsReached()
    ensures Reached(REREAD)
  {
    hide Reached;
    RetainedIsReached();
    var s := RETAINED;
    Onward(s, StartRetain(1, "x", "proof"));
    s := Apply(s, StartRetain(1, "x", "proof"));
    Onward(s, Move(1, FINE));
    s := Apply(s, Move(1, FINE));
    assert s.procs == REREAD.procs;
  }

  lemma RacingIsReached()
    ensures Reached(RACING)
  {
    hide Reached;
    RereadIsReached();
    var s := REREAD;
    Onward(s, StartRequest(2, "x"));
    s := Apply(s, StartRequest(2, "x"));
    Onward(s, Move(2, FINE));
    s := Apply(s, Move(2, FINE));
    assert s.procs == RACING.procs[2 := RACING.procs[2].(phase := RequestWrite)];
    Onward(s, Move(2, FINE));
    RequestMarks(s);
  }

  lemma RequestMarks(s: Node)
    requires s == REREAD.(procs := RACING.procs[2 := RACING.procs[2].(phase := RequestWrite)])
    ensures Apply(s, Move(2, FINE)) == RACING
  {
    var next := Apply(s, Move(2, FINE));
    assert next.procs == RACING.procs;
    assert next.table.rows == RACING.table.rows;
  }

  /** In a run from the start, a retain written over its stale read takes the request back. */
  lemma StaleRetainRevertsRequest()
    ensures Reached(RACING) && HoldsGood(RACING, "x", Requested)
    ensures Enabled(RACING, Move(1, FINE)) && TakesRequest(RACING, Move(1, FINE), "x")
    ensures Reached(Apply(RACING, Move(1, FINE))) && !HoldsGood(Apply(RACING, Move(1, FINE)), "x", Requested)
  {
    hide Reached;
    RacingIsReached();
    Onward(RACING, Move(1, FINE));
  }
}

/**
 When a sub-task whose bundle exists can be built once more, though every write
 finds its row as it was read (src/application/pcs_outbox.rs): exactly when a
 job without the bundle is still around in memory, or can still be read.
 */
module PcsReproves {
  import opened Wrappers
  import opened Storage
  import opened PcsOutbox
  import opened PcsLifetime
  import opened PcsCarriers
  import opened PcsProves

  /** A process is about to prove `id` with a job that has no bundle. */
  predicate Prover(proc: Proc, id: string) {
    Proves(proc.phase) && proc.id == id && proc.job.bundle.None?
  }

  ghost predicate SomeProver(s: Node, id: string) {
    exists p :: p in s.procs && Prover(s.procs[p], id)
  }

  /** A job of `id` without a bundle is around: to be proved, at its claim, or in the retry loop's list. */
  ghost predicate UnbuiltAround(s: Node, id: string) {
    SomeProver(s, id) || SomeWaits(s, id, Bundled)
  }

  /** The run builds `id`, and nothing excuses it before. */
  ghost predicate BuildsAlong(s: Node, steps: seq<Step>, id: string)
    decreases |steps|
  {
    && steps != []
    && (Builds(s, steps[0], id) || (!Excuses(s, steps[0], id) && BuildsAlong(Apply(s, steps[0]), steps[1..], id)))
  }

  /** Some run builds `id` without an excuse, though every write finds the row as it was read. */
  ghost predicate CanBeBuilt(s: Node, id: string) {
    exists steps :: Run(s, steps) && CurrentRun(s, steps, id) && BuildsAlong(s, steps, id)
  }

  // ---------------------------------------------------------------------
  // With the bundle cached and no other job around
  // ---------------------------------------------------------------------

  /** Only a process that waited for its claim, or was about to prove, comes to prove. */
  lemma MoverIsNoProver(s: Node, p: nat, w: World, id: string)
    requires Honest(s) && p in s.procs && !UnbuiltAround(s, id)
    ensures MoveEffect(s, p, AfterMove(s, p, w)) && !Prover(AfterMove(s, p, w).procs[p], id)
  {
    hide AfterMove, MoveEffect, ComesToProve, CarriesOn;
    assert Carries(s.procs[p]) && Asked(s.procs[p]);
    assert !Prover(s.procs[p], id) && !Waits(s.procs[p], id, Bundled);
    hide Honest, Carries, Asked, UnbuiltAround, Waits, Prover;
    EveryMoveEffect(s, p, w);
    MoveCarries(s, p, w);
    ComesFromAnotherJob(s, p, AfterMove(s, p, w), id);
  }

  lemma ComesFromAnotherJob(s: Node, p: nat, next: Node, id: string)
    requires p in s.procs && ComesToProve(s, p, next)
    requires !Prover(s.procs[p], id) && !Waits(s.procs[p], id, Bundled)
    ensures p in next.procs && !Prover(next.procs[p], id)
  {
  }

  lemma NoNewProver(s: Node, step: Step, id: string)
    requires Honest(s) && Enabled(s, step) && !UnbuiltAround(s, id)
    ensures !SomeProver(Apply(s, step), id)
  {
    hide AfterMove, Honest, LockEffect, SomeWaits;
    if step.Move? {
      MoverIsNoProver(s, step.p, step.w, id);
    }
    hide Asked;
    var next := Apply(s, step);
    forall p | p in next.procs ensures !Prover(next.procs[p], id) {
      if p in s.procs && next.procs[p] == s.procs[p] {
        assert !Prover(s.procs[p], id);
      }
    }
  }

  lemma CachedStep(s: Node, step: Step, id: string)
    requires Honest(s) && Enabled(s, step) && Current(s, step, id)
    requires HoldsGood(s, id, Bundled) && !UnbuiltAround(s, id)
    ensures !Builds(s, step, id)
    ensures !Excuses(s, step, id) ==> HoldsGood(Apply(s, step), id, Bundled) && !UnbuiltAround(Apply(s, step), id)
  {
    if step.Move? && step.p in s.procs {
      assert Carries(s.procs[step.p]) && !Prover(s.procs[step.p], id);
    }
    hide Honest, Enabled, Apply, Current, HoldsGood, Prover, Waits;
    if !Excuses(s, step, id) {
      BundleStays(s, step, id);
      NoNewProver(s, step, id);
      NoNewWaiter(s, step, id, Bundled);
    }
  }

  lemma {:induction false} CachedBuildsNothing(s: Node, steps: seq<Step>, id: string)
    requires Honest(s) && Run(s, steps) && CurrentRun(s, steps, id)
    requires HoldsGood(s, id, Bundled) && !UnbuiltAround(s, id)
    ensures !BuildsAlong(s, steps, id)
    decreases |steps|
  {
    hide Honest, Enabled, Apply, Current, HoldsGood, UnbuiltAround, Builds, Excuses;
    if steps != [] {
      CachedStep(s, steps[0], id);
      StepKeepsHonest(s, steps[0]);
      if !Excuses(s, steps[0], id) {
        CachedBuildsNothing(Apply(s, steps[0]), steps[1..], id);
      }
    }
  }

  // ---------------------------------------------------------------------
  // Any other job around comes to be built
  // ---------------------------------------------------------------------

  lemma StepThenRun(s: Node, step: Step, rest: seq<Step>, id: string)
    requires Enabled(s, step) && Current(s, step, id)
    requires Run(Apply(s, step), rest) && CurrentRun(Apply(s, step), rest, id)
    requires Builds(s, step, id) || (!Excuses(s, step, id) && BuildsAlong(Apply(s, step), rest, id))
    ensures CanBeBuilt(s, id)
  {
    hide Enabled, Apply, Current, Builds, Excuses;
    var steps := [step] + rest;
    assert steps[0] == step && steps[1..] == rest;
    assert Run(s, steps) && CurrentRun(s, steps, id) && BuildsAlong(s, steps, id);
  }

  lemma BuiltLater(s: Node, step: Step, id: string)
    requires Enabled(s, step) && Current(s, step, id) && !Excuses(s, step, id) && CanBeBuilt(Apply(s, step), id)
    ensures CanBeBuilt(s, id)
  {
    hide Enabled, Apply, Current, Excuses;
    var next := Apply(s, step);
    var rest :| Run(next, rest) && CurrentRun(next, rest, id) && BuildsAlong(next, rest, id);
    StepThenRun(s, step, rest, id);
  }

  lemma ProvingBuilds(s: Node, p: nat, id: string)
    requires p in s.procs && Prover(s.procs[p], id) && s.procs[p].phase.Proving?
    ensures CanBeBuilt(s, id)
  {
    var step := Move(p, FINE);
    assert Enabled(s, step) && Current(s, step, id) && Builds(s, step, id);
    hide Apply, CanBeBuilt;
    StepThenRun(s, step, [], id);
  }

  lemma ProverBuilds(s: Node, p: nat, id: string)
    requires p in s.procs && Prover(s.procs[p], id)
    ensures CanBeBuilt(s, id)
  {
    if s.procs[p].phase.Proving? {
      ProvingBuilds(s, p, id);
    } else {
      var step := Move(p, FINE);
      var next := Apply(s, step);
      assert Enabled(s, step) && Current(s, step, id) && !Excuses(s, step, id);
      assert next.procs[p] == s.procs[p].(phase := Proving);
      hide Apply, CanBeBuilt;
      ProvingBuilds(next, p, id);
      BuiltLater(s, step, id);
    }
  }

  lemma {:induction false} StallThenBuild(s: Node, steps: seq<Step>, id: string)
    requires StallingRun(s, steps, id, Bundled) && CanBeBuilt(RunTo(s, steps), id)
    ensures CanBeBuilt(s, id)
    decreases |steps|
  {
    hide Enabled, Apply, Current, CanBeBuilt;
    if steps != [] {
      StallSparesRow(s, steps[0], id, Bundled);
      StallThenBuild(Apply(s, steps[0]), steps[1..], id);
      BuiltLater(s, steps[0], id);
    }
  }

  lemma WaiterIsBuilt(s: Node, p: nat, id: string)
    requires Reached(s) && p in s.procs && Waits(s.procs[p], id, Bundled)
    ensures CanBeBuilt(s, id)
  {
    ReachedIsHonest(s);
    forall q | q in s.procs ensures !CachesBad(s.procs[q], id, Bundled) {
      assert Carries(s.procs[q]);
    }
    var steps := WaiterBuilds(s, p, id, Bundled);
    hide StallingRun, RunTo, CanBeBuilt;
    ProverBuilds(RunTo(s, steps), p, id);
    StallThenBuild(s, steps, id);
  }

  // ---------------------------------------------------------------------
  // Before the cache write
  // ---------------------------------------------------------------------

  lemma {:induction false} Beyond(keys: set<nat>) returns (p: nat)
    ensures forall k :: k in keys ==> k < p
    decreases keys
  {
    if keys == {} {
      p := 0;
    } else {
      var k :| k in keys;
      var q := Beyond(keys - {k});
      p := if k < q then q else k + 1;
      assert forall j :: j in keys ==> j == k || j in keys - {k};
    }
  }

  lemma NewProc(s: Node) returns (p: nat)
    ensures p !in s.procs
  {
    p := Beyond(s.procs.Keys);
  }

  lemma MoveThenBuilt(s: Node, p: nat, id: string)
    requires Reached(s) && p in s.procs && Reads(s.procs[p].phase) && !s.procs[p].phase.OpenWrite?
    requires Current(s, Move(p, FINE), id)
    requires Reached(AfterMove(s, p, FINE)) ==> CanBeBuilt(AfterMove(s, p, FINE), id)
    ensures CanBeBuilt(s, id)
  {
    var step := Move(p, FINE);
    assert Enabled(s, step) && Apply(s, step) == AfterMove(s, p, FINE);
    MoveTable(s, p, FINE);
    assert !Excuses(s, step, id);
    hide Apply, CanBeBuilt, AfterMove, Reached;
    Onward(s, step);
    BuiltLater(s, step, id);
  }

  /** The row is marked in the step after its read, and the request stands at its claim. */
  lemma MarkedIsBuilt(s: Node, p: nat, id: string)
    requires Reached(s) && id in s.table.rows && !Bundled(s.table.rows[id].job)
    requires var row := s.table.rows[id];
      p in s.procs && s.procs[p] == Proc(id, RequestWrite, row.job.(requested := true), Some(row), false, [], NO_ROUND)
    ensures CanBeBuilt(s, id)
  {
    var next := AfterMove(s, p, FINE);
    hide Reached, CanBeBuilt;
    assert next.procs[p] == s.procs[p].(phase := Claiming);
    if Reached(next) {
      WaiterIsBuilt(next, p, id);
    }
    MoveThenBuilt(s, p, id);
  }

  /** As long as the row has no bundle, a request reads it and comes to build it. */
  lemma RowIsBuilt(s: Node, id: string)
    requires Reached(s) && id in s.table.rows && !Bundled(s.table.rows[id].job)
    ensures CanBeBuilt(s, id)
  {
    hide Reached, CanBeBuilt;
    var p := NewProc(s);
    var row := s.table.rows[id];
    var reading := Apply(s, StartRequest(p, id));
    Onward(s, StartRequest(p, id));
    var next := AfterMove(reading, p, FINE);
    var job := row.job.(requested := true);
    assert next.procs[p] == Proc(id, if row.job.requested then Claiming else RequestWrite, job, Some(row), false, [], NO_ROUND);
    assert next.table == s.table;
    if Reached(next) {
      if row.job.requested {
        WaiterIsBuilt(next, p, id);
      } else {
        MarkedIsBuilt(next, p, id);
      }
    }
    MoveThenBuilt(reading, p, id);
    BuiltLater(s, StartRequest(p, id), id);
  }

  /** The write of a retain that has found no row makes one without a bundle. */
  lemma RetainedIsBuilt(s: Node, p: nat, id: string)
    requires Reached(s) && id !in s.table.rows
    requires p in s.procs && s.procs[p] == Proc(id, RetainWrite, NO_JOB, None, false, [], NO_ROUND)
    ensures CanBeBuilt(s, id)
  {
    hide Reached, CanBeBuilt;
    var next := AfterMove(s, p, FINE);
    assert id in next.table.rows && next.table.rows[id].job == NO_JOB;
    if Reached(next) {
      RowIsBuilt(next, id);
    }
    MoveThenBuilt(s, p, id);
  }

  /** Without a row, a result that is sent again retains one. */
  lemma AbsentIsBuilt(s: Node, id: string)
    requires Reached(s) && id !in s.table.rows
    ensures CanBeBuilt(s, id)
  {
    hide Reached, CanBeBuilt;
    var p := NewProc(s);
    var start := StartRetain(p, id, "");
    var reading := Apply(s, start);
    Onward(s, start);
    var next := AfterMove(reading, p, FINE);
    assert next.procs[p] == Proc(id, RetainWrite, NO_JOB, None, false, [], NO_ROUND) && next.table == s.table;
    if Reached(next) {
      RetainedIsBuilt(next, p, id);
    }
    MoveThenBuilt(reading, p, id);
    BuiltLater(s, start, id);
  }

  /**
   Once `id` has been built, it can be built again without an excuse exactly if
   its row does not hold the bundle, or a job without the bundle is still
   around: to be proved, at its claim, or in the retry loop's list.
   */
  lemma BuiltAgainIffAnUnbuiltJobIsAround(s: Node, id: string)
    requires Reached(s) && Spent(s, id)
    ensures CanBeBuilt(s, id) <==> !HoldsGood(s, id, Bundled) || UnbuiltAround(s, id)
  {
    hide Reached, CanBeBuilt, Prover, Waits;
    if !HoldsGood(s, id, Bundled) {
      if id in s.table.rows {
        RowIsBuilt(s, id);
      } else {
        AbsentIsBuilt(s, id);
      }
    } else if p :| p in s.procs && Prover(s.procs[p], id) {
      ProverBuilds(s, p, id);
    } else if p :| p in s.procs && Waits(s.procs[p], id, Bundled) {
      WaiterIsBuilt(s, p, id);
    } else {
      CachedCannotBeBuilt(s, id);
    }
  }

  lemma CachedCannotBeBuilt(s: Node, id: string)
    requires Reached(s) && HoldsGood(s, id, Bundled) && !UnbuiltAround(s, id)
    ensures !CanBeBuilt(s, id)
  {
    ReachedIsHonest(s);
    hide Honest, Run, CurrentRun, BuildsAlong, UnbuiltAround, HoldsGood;
    forall steps | Run(s, steps) && CurrentRun(s, steps, id) ensures !BuildsAlong(s, steps, id) {
      CachedBuildsNothing(s, steps, id);
    }
  }
}

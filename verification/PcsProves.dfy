/** When a sub-task can be proved a second time (src/application/pcs_outbox.rs). */
module PcsProves {
  import opened Wrappers
  import opened Storage
  import opened PcsOutbox
  import opened PcsLifetime

  /** The step is the successful end of a prove of `id`. */
  predicate Builds(s: Node, step: Step, id: string) {
    step.Move? && step.p in s.procs && s.procs[step.p].phase.Proving? && s.procs[step.p].id == id && step.w.proved.Built?
  }

  /** A claim that succeeds is made for the row of `id` as it is now. */
  ghost predicate ClaimsCurrent(s: Node, step: Step, id: string) {
    step.Move? && step.p in s.procs && s.procs[step.p].phase.Claiming? && s.procs[step.p].id == id && id !in s.inFlight ==>
      id in s.table.rows && s.table.rows[id].job == s.procs[step.p].job
  }

  ghost predicate Careful(s: Node, step: Step, id: string) {
    Current(s, step, id) && ClaimsCurrent(s, step, id)
  }

  ghost predicate CarefulRun(s: Node, steps: seq<Step>, id: string)
    decreases |steps|
  {
    steps == [] || (Careful(s, steps[0], id) && CarefulRun(Apply(s, steps[0]), steps[1..], id))
  }

  predicate Unbuilt(job: Job) { job.requested && job.bundle.None? }

  /** Whoever is about to prove `id` does so for a requested row without a bundle. */
  ghost predicate ProvesForItsRow(s: Node, id: string) {
    forall p :: p in s.procs && Proves(s.procs[p].phase) && s.procs[p].id == id && s.procs[p].job.bundle.None? ==>
      HoldsGood(s, id, Unbuilt)
  }

  /** While another process is inside for `id`, a current step leaves an unbuilt row unbuilt. */
  lemma UnbuiltStays(s: Node, step: Step, id: string, q: nat)
    requires Honest(s) && Exclusive(s) && Enabled(s, step) && Current(s, step, id)
    requires q in s.procs && Inside(s.procs[q]) && s.procs[q].id == id && HoldsGood(s, id, Unbuilt)
    requires step.Move? && step.p != q
    ensures HoldsGood(Apply(s, step), id, Unbuilt)
  {
    GoodSurvivesStep(s, step, id, Unbuilt);
    assert Asked(s.procs[step.p]) && Carries(s.procs[step.p]);
    hide Apply, Enabled;
  }

  /** A process comes to prove from a current claim, or was about to prove already. */
  lemma ProverItself(s: Node, p: nat, w: World, next: Node, id: string)
    requires ProvesForItsRow(s, id) && p in s.procs && Asked(s.procs[p]) && ClaimsCurrent(s, Move(p, w), id)
    requires ComesToProve(s, p, next) && MoveEffect(s, p, next)
    requires Proves(next.procs[p].phase) && next.procs[p].id == id && next.procs[p].job.bundle.None?
    ensures HoldsGood(next, id, Unbuilt)
  {
  }

  lemma StepKeepsItsRow(s: Node, step: Step, id: string)
    requires Honest(s) && Exclusive(s) && Enabled(s, step) && Careful(s, step, id) && ProvesForItsRow(s, id)
    ensures ProvesForItsRow(Apply(s, step), id)
  {
    if step.Move? {
      var next := AfterMove(s, step.p, step.w);
      EveryMoveEffect(s, step.p, step.w);
      assert Carries(s.procs[step.p]) && Asked(s.procs[step.p]);
      MoveCarries(s, step.p, step.w);
      CarefulIsCurrent(s, step, id);
      hide AfterMove, Honest, Exclusive, LockEffect, Asked, Careful, HoldsGood, ComesToProve, ClaimsCurrent;
      forall q | q in next.procs && Proves(next.procs[q].phase) && next.procs[q].id == id && next.procs[q].job.bundle.None?
        ensures HoldsGood(next, id, Unbuilt)
      {
        if q == step.p {
          ProverItself(s, step.p, step.w, next, id);
        } else {
          UnbuiltStays(s, step, id, q);
        }
      }
    } else {
      OtherStepKeepsItsRow(s, step, id);
    }
  }

  lemma CarefulIsCurrent(s: Node, step: Step, id: string)
    requires Careful(s, step, id)
    ensures Current(s, step, id) && ClaimsCurrent(s, step, id)
  {
  }

  lemma OtherStepKeepsItsRow(s: Node, step: Step, id: string)
    requires ProvesForItsRow(s, id) && Enabled(s, step) && !step.Move?
    ensures ProvesForItsRow(Apply(s, step), id)
  {
    forall p | p in Apply(s, step).procs && Proves(Apply(s, step).procs[p].phase) ensures p in s.procs && s.procs[p] == Apply(s, step).procs[p] {
    }
  }

  /** Whoever proves `id` works on a requested row without a bundle, and the row is there. */
  ghost predicate Sound(s: Node, id: string) {
    Honest(s) && Exclusive(s) && ProvesForItsRow(s, id)
  }

  lemma StepKeepsSound(s: Node, step: Step, id: string)
    requires Sound(s, id) && Enabled(s, step) && Careful(s, step, id)
    ensures Sound(Apply(s, step), id)
  {
    hide Honest, Exclusive, ProvesForItsRow, Enabled, Apply, Careful;
    HonestHasAsked(s);
    StepKeepsHonest(s, step);
    StepKeepsExclusive(s, step);
    StepKeepsItsRow(s, step, id);
  }

  lemma HonestHasAsked(s: Node)
    requires Honest(s)
    ensures AllAsked(s)
  {
  }

  lemma {:induction false} RunKeepsSound(s: Node, steps: seq<Step>, id: string)
    requires Sound(s, id) && Run(s, steps) && CarefulRun(s, steps, id)
    ensures Sound(RunTo(s, steps), id)
    decreases |steps|
  {
    hide Sound, Enabled, Apply, Careful;
    if steps != [] {
      StepKeepsSound(s, steps[0], id);
      RunKeepsSound(Apply(s, steps[0]), steps[1..], id);
    }
  }

  lemma InitiallySound(id: string)
    ensures Sound(INITIAL, id)
  {
  }

  /** In every reachable state a prove of `id` has its row there, requested and without a bundle. */
  lemma ProverHasItsRow(steps: seq<Step>, id: string, p: nat)
    requires Run(INITIAL, steps) && CarefulRun(INITIAL, steps, id)
    requires p in RunTo(INITIAL, steps).procs && RunTo(INITIAL, steps).procs[p].phase.Proving? && RunTo(INITIAL, steps).procs[p].id == id
    ensures HoldsGood(RunTo(INITIAL, steps), id, Unbuilt)
  {
    InitiallySound(id);
    RunKeepsSound(INITIAL, steps, id);
    hide Run, RunTo;
    assert Carries(RunTo(INITIAL, steps).procs[p]);
  }

  // ---------------------------------------------------------------------
  // What lies between two proves
  // ---------------------------------------------------------------------

  ghost predicate SomeCaching(s: Node, id: string) {
    exists p :: p in s.procs && s.procs[p].phase.Caching? && s.procs[p].id == id
  }

  /** An open-call overwrite, a failed or never made cache write, or the row's deletion. */
  ghost predicate Excuses(s: Node, step: Step, id: string) {
    || (step.Crash? && SomeCaching(s, id))
    || OpenCallWrites(s, step, id)
    || (step.Move? && step.p in s.procs && s.procs[step.p].phase.Caching? && s.procs[step.p].id == id && !step.w.storageOk)
    || (id in s.table.rows && id !in Apply(s, step).table.rows)
  }

  predicate Bundled(job: Job) { job.bundle.Some? }

  /** The bundle of `id` has been built: it is about to be cached, or it is. */
  ghost predicate Spent(s: Node, id: string) {
    SomeCaching(s, id) || HoldsGood(s, id, Bundled)
  }

  lemma BuildSpends(s: Node, step: Step, id: string)
    requires Enabled(s, step) && Builds(s, step, id)
    ensures Spent(Apply(s, step), id)
  {
    var next := Apply(s, step);
    assert next.procs[step.p].phase.Caching? && next.procs[step.p].id == id;
  }

  lemma SpentBuildsNothing(s: Node, step: Step, id: string)
    requires Sound(s, id) && Spent(s, id) && Enabled(s, step)
    ensures !Builds(s, step, id)
  {
    assert step.Move? && step.p in s.procs ==> Carries(s.procs[step.p]);
  }

  lemma SpentStays(s: Node, step: Step, id: string)
    requires Sound(s, id) && Spent(s, id) && Enabled(s, step) && Careful(s, step, id) && !Excuses(s, step, id)
    ensures Spent(Apply(s, step), id)
  {
    if HoldsGood(s, id, Bundled) {
      BundleStays(s, step, id);
    } else {
      var p :| p in s.procs && s.procs[p].phase.Caching? && s.procs[p].id == id;
      CachingStays(s, step, id, p);
    }
  }

  lemma BundleStays(s: Node, step: Step, id: string)
    requires Honest(s) && Enabled(s, step) && Current(s, step, id) && !Excuses(s, step, id) && HoldsGood(s, id, Bundled)
    ensures HoldsGood(Apply(s, step), id, Bundled)
  {
    GoodSurvivesStep(s, step, id, Bundled);
    if WritesRow(s, step, id) {
      assert Asked(s.procs[step.p]) && Carries(s.procs[step.p]);
    }
    if step.Move? {
      MoveTable(s, step.p, step.w);
    }
    hide AfterMove;
  }

  lemma CachingStays(s: Node, step: Step, id: string, p: nat)
    requires Honest(s) && Enabled(s, step) && !Excuses(s, step, id)
    requires p in s.procs && s.procs[p].phase.Caching? && s.procs[p].id == id
    ensures Spent(Apply(s, step), id)
  {
    if step.Move? {
      EveryMoveEffect(s, step.p, step.w);
      if step.p == p {
        assert Carries(s.procs[p]);
        MoveTable(s, p, step.w);
      } else {
        assert Apply(s, step).procs[p] == s.procs[p];
      }
      hide AfterMove;
    } else {
      assert Apply(s, step).procs[p] == s.procs[p];
    }
  }

  ghost predicate NoExcuse(s: Node, steps: seq<Step>, id: string)
    decreases |steps|
  {
    steps == [] || (!Excuses(s, steps[0], id) && NoExcuse(Apply(s, steps[0]), steps[1..], id))
  }

  ghost predicate NoBuild(s: Node, steps: seq<Step>, id: string)
    decreases |steps|
  {
    steps == [] || (!Builds(s, steps[0], id) && NoBuild(Apply(s, steps[0]), steps[1..], id))
  }

  lemma {:induction false} SpentRunBuildsNothing(s: Node, steps: seq<Step>, id: string)
    requires Sound(s, id) && Spent(s, id) && Run(s, steps) && CarefulRun(s, steps, id) && NoExcuse(s, steps, id)
    ensures NoBuild(s, steps, id)
    decreases |steps|
  {
    hide Sound, Spent, Enabled, Apply, Careful, Excuses, Builds;
    if steps != [] {
      SpentBuildsNothing(s, steps[0], id);
      SpentStays(s, steps[0], id);
      StepKeepsSound(s, steps[0], id);
      SpentRunBuildsNothing(Apply(s, steps[0]), steps[1..], id);
    }
  }

  /**
   When writes and claims of `id` find the row as they read it, two proves of
   `id` are always separated by an open-call overwrite, a failed cache write, a
   crash before the cache write, or a deletion of the row.
   */
  lemma NoSecondProve(before: seq<Step>, first: Step, after: seq<Step>, id: string)
    requires Run(INITIAL, before) && CarefulRun(INITIAL, before, id)
    requires Enabled(RunTo(INITIAL, before), first) && Careful(RunTo(INITIAL, before), first, id)
    requires Builds(RunTo(INITIAL, before), first, id)
    requires var s := Apply(RunTo(INITIAL, before), first);
      Run(s, after) && CarefulRun(s, after, id) && NoExcuse(s, after, id)
    ensures NoBuild(Apply(RunTo(INITIAL, before), first), after, id)
  {
    hide Enabled, Apply, Careful, Excuses, Builds, Spent, Sound;
    InitiallySound(id);
    RunKeepsSound(INITIAL, before, id);
    var s := RunTo(INITIAL, before);
    BuildSpends(s, first, id);
    StepKeepsSound(s, first, id);
    SpentRunBuildsNothing(Apply(s, first), after, id);
  }
}

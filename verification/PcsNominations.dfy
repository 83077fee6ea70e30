/**
 An open call overwrites the stored job of its sub-task even while an older job
 is still around in memory (src/application/pcs_outbox.rs): when its nomination
 gets lost.
 */
module PcsNominations {
  import opened Wrappers
  import opened Storage
  import opened PcsOutbox
  import opened PcsLifetime
  import opened PcsCarriers

  function Nominates(hash: string): Job -> bool {
    (job: Job) => job.requested && job.openCall == Some(hash)
  }

  /** The row of `id` holds the open call for `hash`. */
  predicate Nominated(s: Node, id: string, hash: string) {
    HoldsGood(s, id, Nominates(hash))
  }

  /** A process that has not yet come to its release works on another job of `id`. */
  predicate Foreign(proc: Proc, id: string, hash: string) {
    Inside(proc) && !proc.phase.Releasing? && proc.id == id && proc.job.openCall != Some(hash)
  }

  ghost predicate SomeForeign(s: Node, id: string, hash: string) {
    exists p :: p in s.procs && Foreign(s.procs[p], id, hash)
  }

  /**
   Another job of `id` is still around in memory: being worked on, at its claim,
   or among the entries the retry loop has yet to look at.
   */
  ghost predicate Threatened(s: Node, id: string, hash: string) {
    SomeForeign(s, id, hash) || SomeWaits(s, id, Nominates(hash))
  }

  /** Another job's cache write or delete takes the nomination from the row, unserved. */
  predicate Drops(s: Node, step: Step, id: string, hash: string) {
    && Calls(s, step)
    && (s.procs[step.p].phase.Caching? || Deletes(s.procs[step.p].phase))
    && s.procs[step.p].id == id && s.procs[step.p].job.openCall != Some(hash)
  }

  /** A later open call for another leaf proof replaces this one. */
  predicate Supersedes(s: Node, step: Step, id: string, hash: string) {
    OpenCallWrites(s, step, id) && s.procs[step.p].job.openCall != Some(hash)
  }

  /** The row is deleted after an acknowledged send for this very open call. */
  predicate Serves(s: Node, step: Step, id: string, hash: string) {
    DeletesRow(s, step, id) && s.procs[step.p].job.openCall == Some(hash)
  }

  /** A nomination survives a step exactly if it is not dropped, superseded or served. */
  lemma NominationSurvivesStep(s: Node, step: Step, id: string, hash: string)
    requires Honest(s) && Enabled(s, step) && Current(s, step, id) && Nominated(s, id, hash)
    ensures Nominated(Apply(s, step), id, hash) <==>
              !Drops(s, step, id, hash) && !Supersedes(s, step, id, hash) && !Serves(s, step, id, hash)
  {
    GoodSurvivesStep(s, step, id, Nominates(hash));
    assert step.Move? && step.p in s.procs ==> Asked(s.procs[step.p]) && Carries(s.procs[step.p]);
    hide Apply, Enabled;
  }

  // ---------------------------------------------------------------------
  // Without another job in memory the nomination is safe
  // ---------------------------------------------------------------------

  lemma InsideKeepsOpenCall(s: Node, p: nat, w: World)
    requires p in s.procs && Inside(s.procs[p])
    ensures p in AfterMove(s, p, w).procs
    ensures Inside(AfterMove(s, p, w).procs[p]) ==> AfterMove(s, p, w).procs[p].job.openCall == s.procs[p].job.openCall && !s.procs[p].phase.Releasing?
  {
    hide UpsertPcs, DeletePcs;
  }

  lemma ClaimKeepsJob(s: Node, p: nat, w: World)
    requires p in s.procs && s.procs[p].phase.Claiming? && s.procs[p].id !in s.inFlight
    ensures p in AfterMove(s, p, w).procs && AfterMove(s, p, w).procs[p].job == s.procs[p].job
  {
  }

  /** Only a process that waited for its claim comes to work on another job. */
  lemma NoNewForeign(s: Node, step: Step, id: string, hash: string)
    requires Enabled(s, step) && !Threatened(s, id, hash)
    ensures !SomeForeign(Apply(s, step), id, hash)
  {
    var next := Apply(s, step);
    forall p | p in next.procs ensures !Foreign(next.procs[p], id, hash) {
      if p in s.procs && next.procs[p] == s.procs[p] {
        assert !Foreign(s.procs[p], id, hash);
      } else if step.Move? {
        EveryMoveEffect(s, step.p, step.w);
        if Inside(s.procs[p]) {
          InsideKeepsOpenCall(s, p, step.w);
          assert !Foreign(s.procs[p], id, hash);
        } else if Inside(next.procs[p]) {
          ClaimKeepsJob(s, p, step.w);
          assert !Waits(s.procs[p], id, Nominates(hash));
        }
        hide AfterMove, Asked;
      }
    }
  }

  lemma NoNewThreat(s: Node, step: Step, id: string, hash: string)
    requires Honest(s) && Enabled(s, step) && Current(s, step, id)
    requires Nominated(s, id, hash) && Nominated(Apply(s, step), id, hash) && !Threatened(s, id, hash)
    ensures !Threatened(Apply(s, step), id, hash)
  {
    NominationSurvivesStep(s, step, id, hash);
    if OpenCallWrites(s, step, id) {
      assert Asked(s.procs[step.p]);
    }
    hide Apply, Enabled, Honest, Current, HoldsGood, Foreign;
    NoNewForeign(s, step, id, hash);
    NoNewWaiter(s, step, id, Nominates(hash));
  }

  /** Somewhere along the run the nomination, still in its row, is dropped. */
  ghost predicate DropsAlong(s: Node, steps: seq<Step>, id: string, hash: string)
    decreases |steps|
  {
    && steps != [] && Nominated(s, id, hash)
    && (Drops(s, steps[0], id, hash) || DropsAlong(Apply(s, steps[0]), steps[1..], id, hash))
  }

  lemma {:induction false} UnthreatenedIsNotDropped(s: Node, steps: seq<Step>, id: string, hash: string)
    requires Honest(s) && Run(s, steps) && CurrentRun(s, steps, id) && !Threatened(s, id, hash)
    ensures !DropsAlong(s, steps, id, hash)
    decreases |steps|
  {
    if steps != [] && Nominated(s, id, hash) {
      DropIsForeign(s, steps[0], id, hash);
      hide Honest, Enabled, Apply, Current, Threatened, Drops, Nominated;
      StepKeepsHonest(s, steps[0]);
      if Nominated(Apply(s, steps[0]), id, hash) {
        NoNewThreat(s, steps[0], id, hash);
        UnthreatenedIsNotDropped(Apply(s, steps[0]), steps[1..], id, hash);
      }
    }
  }

  lemma DropIsForeign(s: Node, step: Step, id: string, hash: string)
    requires !Threatened(s, id, hash)
    ensures !Drops(s, step, id, hash)
  {
    if step.Move? && step.p in s.procs {
      assert !Foreign(s.procs[step.p], id, hash);
    }
  }

  // ---------------------------------------------------------------------
  // Any other job in memory can drop it
  // ---------------------------------------------------------------------

  /** Some run drops the nomination, though every write finds the row as it was read. */
  ghost predicate CanBeDropped(s: Node, id: string, hash: string) {
    exists steps :: Run(s, steps) && CurrentRun(s, steps, id) && DropsAlong(s, steps, id, hash)
  }

  lemma StepThenRun(s: Node, step: Step, rest: seq<Step>, id: string, hash: string)
    requires Enabled(s, step) && Current(s, step, id) && Nominated(s, id, hash)
    requires Run(Apply(s, step), rest) && CurrentRun(Apply(s, step), rest, id)
    requires Drops(s, step, id, hash) || DropsAlong(Apply(s, step), rest, id, hash)
    ensures CanBeDropped(s, id, hash)
  {
    hide Enabled, Apply, Current, Drops, Nominated;
    var steps := [step] + rest;
    assert steps[0] == step && steps[1..] == rest;
    assert Run(s, steps) && CurrentRun(s, steps, id) && DropsAlong(s, steps, id, hash);
  }

  lemma DroppedLater(s: Node, step: Step, id: string, hash: string)
    requires Enabled(s, step) && Current(s, step, id) && Nominated(s, id, hash)
    requires CanBeDropped(Apply(s, step), id, hash)
    ensures CanBeDropped(s, id, hash)
  {
    hide Enabled, Apply, Current, Drops, Nominated;
    var next := Apply(s, step);
    var rest :| Run(next, rest) && CurrentRun(next, rest, id) && DropsAlong(next, rest, id, hash);
    StepThenRun(s, step, rest, id, hash);
  }

  /** Until it writes or deletes, a process inside changes nothing but itself. */
  lemma ForeignGoesOn(s: Node, p: nat, id: string, hash: string)
    requires p in s.procs && Foreign(s.procs[p], id, hash) && !s.procs[p].phase.Caching? && !Deletes(s.procs[p].phase)
    ensures var next := AfterMove(s, p, FINE);
      && p in next.procs && Foreign(next.procs[p], id, hash) && next.table == s.table
      && Remaining(next.procs[p]) < Remaining(s.procs[p])
  {
    hide UpsertPcs, DeletePcs;
  }

  lemma {:induction false} ForeignDrops(s: Node, p: nat, id: string, hash: string)
    requires Nominated(s, id, hash) && p in s.procs && Foreign(s.procs[p], id, hash)
    ensures CanBeDropped(s, id, hash)
    decreases Remaining(s.procs[p])
  {
    var step := Move(p, FINE);
    assert Enabled(s, step) && Current(s, step, id) && Apply(s, step) == AfterMove(s, p, FINE);
    if s.procs[p].phase.Caching? || Deletes(s.procs[p].phase) {
      assert Drops(s, step, id, hash);
      hide AfterMove, CanBeDropped;
      StepThenRun(s, step, [], id, hash);
    } else {
      ForeignGoesOn(s, p, id, hash);
      hide AfterMove, Foreign, CanBeDropped;
      ForeignDrops(AfterMove(s, p, FINE), p, id, hash);
      DroppedLater(s, step, id, hash);
    }
  }

  lemma {:induction false} StallThenDrop(s: Node, steps: seq<Step>, id: string, hash: string)
    requires Nominated(s, id, hash) && StallingRun(s, steps, id, Nominates(hash))
    requires Nominated(RunTo(s, steps), id, hash) ==> CanBeDropped(RunTo(s, steps), id, hash)
    ensures CanBeDropped(s, id, hash)
    decreases |steps|
  {
    hide Enabled, Apply, Current, HoldsGood, CanBeDropped;
    if steps != [] {
      StallSparesRow(s, steps[0], id, Nominates(hash));
      StallThenDrop(Apply(s, steps[0]), steps[1..], id, hash);
      DroppedLater(s, steps[0], id, hash);
    }
  }

  lemma CachesForeign(s: Node, id: string, hash: string)
    requires Honest(s) && !SomeForeign(s, id, hash)
    ensures forall q :: q in s.procs ==> !CachesBad(s.procs[q], id, Nominates(hash))
  {
    forall q | q in s.procs ensures !CachesBad(s.procs[q], id, Nominates(hash)) {
      assert Asked(s.procs[q]) && !Foreign(s.procs[q], id, hash);
    }
  }

  lemma WaiterDrops(s: Node, p: nat, id: string, hash: string)
    requires Exclusive(s) && Honest(s) && Nominated(s, id, hash) && !SomeForeign(s, id, hash)
    requires p in s.procs && Waits(s.procs[p], id, Nominates(hash))
    ensures CanBeDropped(s, id, hash)
  {
    CachesForeign(s, id, hash);
    var steps := WaiterBuilds(s, p, id, Nominates(hash));
    var end := RunTo(s, steps);
    StallingIsRun(s, steps, id, Nominates(hash));
    MutualExclusion(s, steps);
    assert Asked(end.procs[p]);
    assert Foreign(end.procs[p], id, hash);
    hide StallingRun, RunTo, Foreign, CanBeDropped, Nominated;
    if Nominated(end, id, hash) {
      ForeignDrops(end, p, id, hash);
    }
    StallThenDrop(s, steps, id, hash);
  }

  /**
   In every reachable state, with every write finding the row as it was read: a
   nomination can be lost unserved exactly while another job of the same
   sub-task is worked on, stands at its claim, or is in the retry loop's list.
   */
  lemma NominationIsLostIffAnotherJobIsAround(s: Node, id: string, hash: string)
    requires Reached(s) && Nominated(s, id, hash)
    ensures CanBeDropped(s, id, hash) <==> Threatened(s, id, hash)
  {
    ReachedIsHonest(s);
    hide Nominated, Run, CurrentRun, DropsAlong, Exclusive, Honest, Waits, Foreign;
    if p :| p in s.procs && Foreign(s.procs[p], id, hash) {
      ForeignDrops(s, p, id, hash);
    } else if p :| p in s.procs && Waits(s.procs[p], id, Nominates(hash)) {
      WaiterDrops(s, p, id, hash);
    } else {
      forall steps | Run(s, steps) && CurrentRun(s, steps, id) ensures !DropsAlong(s, steps, id, hash) {
        UnthreatenedIsNotDropped(s, steps, id, hash);
      }
    }
  }

  // ---------------------------------------------------------------------
  // Such states are reached
  // ---------------------------------------------------------------------

  /** The request of `RACING` has been claimed when the open call is announced. */
  lemma BuildIsReached() returns (s: Node)
    ensures Reached(s)
    ensures s.procs.Keys == {0, 1, 2} && s.procs[2] == RACING.procs[2].(phase := Building)
    ensures s.openCalls == map["x" := "hash"]
  {
    hide Reached;
    RacingIsReached();
    s := RACING;
    Onward(s, Move(2, FINE));
    s := Apply(s, Move(2, FINE));
    Onward(s, Announce("x", "hash"));
    s := Apply(s, Announce("x", "hash"));
  }

  /** An older job is being built when the open call is written. */
  lemma SomeNominationIsThreatened() returns (s: Node)
    ensures Reached(s) && Nominated(s, "x", "hash") && Threatened(s, "x", "hash")
  {
    hide Reached;
    s := BuildIsReached();
    Onward(s, StartOpenCall(3, "x", "hash"));
    s := Apply(s, StartOpenCall(3, "x", "hash"));
    Onward(s, Move(3, FINE));
    s := Apply(s, Move(3, FINE));
    assert s.procs[3] == Proc("x", OpenWrite, Job("", true, None, Some("hash")), None, false, [], NO_ROUND);
    Onward(s, Move(3, FINE));
    s := Apply(s, Move(3, FINE));
    assert Foreign(s.procs[2], "x", "hash");
  }

  /** The request of `RACING` stands at its claim when the open call is announced. */
  lemma OpenCallIsReached() returns (s: Node)
    ensures Reached(s)
    ensures s.procs == RACING.procs[3 := Proc("x", OpenWrite, Job("", true, None, Some("hash")), None, false, [], NO_ROUND)]
  {
    hide Reached;
    RacingIsReached();
    s := RACING;
    Onward(s, Announce("x", "hash"));
    s := Apply(s, Announce("x", "hash"));
    Onward(s, StartOpenCall(3, "x", "hash"));
    s := Apply(s, StartOpenCall(3, "x", "hash"));
    Onward(s, Move(3, FINE));
    s := Apply(s, Move(3, FINE));
  }

  /** An older job only stands at its claim when the open call is written; nobody works on one. */
  lemma SomeNominationIsThreatenedFromAClaim() returns (s: Node)
    ensures Reached(s) && Nominated(s, "x", "hash") && Threatened(s, "x", "hash") && !SomeForeign(s, "x", "hash")
  {
    hide Reached;
    s := OpenCallIsReached();
    Onward(s, Move(3, FINE));
    s := Apply(s, Move(3, FINE));
    assert AtClaim(s.procs[2], "x", Nominates("hash"));
    assert s.procs[3].phase.Claiming?;
  }
}

/**
 Jobs carried in memory (src/application/pcs_outbox.rs): a process at its claim
 and an entry the retry loop has listed outlive what happens to their row, and
 come to be built whenever the calls in between happen to fail.
 */
module PcsCarriers {
  import opened Wrappers
  import opened Storage
  import opened PcsOutbox
  import opened PcsLifetime

  /** A process stands at its claim with a job of `id` that is not good. */
  predicate AtClaim(proc: Proc, id: string, good: Job -> bool) {
    proc.phase.Claiming? && proc.id == id && !good(proc.job)
  }

  /** The listed entries the retry loop has still to look at. */
  function Ahead(proc: Proc): seq<Entry> {
    if !proc.looping || proc.phase.Finished? || proc.entries == [] then []
    else if proc.phase.NextEntry? then proc.entries
    else proc.entries[1..]
  }

  /** The entry makes the retry loop claim `id` with a job that is not good. */
  predicate Stale(entry: Entry, id: string, good: Job -> bool) {
    entry.id == id && entry.row.job.requested && !good(entry.row.job)
  }

  ghost predicate InLoop(proc: Proc, id: string, good: Job -> bool) {
    exists i :: 0 <= i < |Ahead(proc)| && Stale(Ahead(proc)[i], id, good)
  }

  /** A job of `id` that is not good waits in memory for its claim. */
  ghost predicate Waits(proc: Proc, id: string, good: Job -> bool) {
    AtClaim(proc, id, good) || InLoop(proc, id, good)
  }

  ghost predicate SomeWaits(s: Node, id: string, good: Job -> bool) {
    exists p :: p in s.procs && Waits(s.procs[p], id, good)
  }

  /** Neither a request nor a retain of the row makes a good job bad. */
  ghost predicate Keeps(good: Job -> bool) {
    forall job: Job, proof :: good(job) ==> good(job.(requested := true)) && good(job.(proof := proof))
  }

  // ---------------------------------------------------------------------
  // Nothing new to wait for while the row is good
  // ---------------------------------------------------------------------

  lemma ReadBringsNoWaiter(s: Node, p: nat, w: World, id: string, good: Job -> bool)
    requires p in s.procs && Reads(s.procs[p].phase) && Carries(s.procs[p])
    requires Keeps(good) && HoldsGood(s, id, good) && Current(s, Move(p, w), id)
    requires OpenCallWrites(s, Move(p, w), id) ==> good(s.procs[p].job)
    ensures p in AfterMove(s, p, w).procs && !Waits(AfterMove(s, p, w).procs[p], id, good)
  {
    hide UpsertPcs;
    var job := s.table.rows[id].job;
    assert good(job.(requested := true)) && good(job.(proof := s.procs[p].job.proof));
  }

  lemma LoopBringsNoWaiter(s: Node, p: nat, w: World, id: string, good: Job -> bool)
    requires p in s.procs && !Reads(s.procs[p].phase) && Carries(s.procs[p]) && !Waits(s.procs[p], id, good)
    ensures p in AfterMove(s, p, w).procs && !Waits(AfterMove(s, p, w).procs[p], id, good)
  {
    AheadShrinks(s, p, w);
    if Inside(s.procs[p]) {
      InsideKeepsAhead(s, p, w);
    } else {
      ClaimsItsEntry(s, p, w);
    }
    hide AfterMove, Ahead;
    var before, after := s.procs[p], AfterMove(s, p, w).procs[p];
    if InLoop(after, id, good) {
      SuffixInLoop(before, after, id, good);
    }
    assert AtClaim(after, id, good) ==> InLoop(before, id, good) || AtClaim(before, id, good);
  }

  lemma SuffixInLoop(before: Proc, after: Proc, id: string, good: Job -> bool)
    requires ShrinksTo(Ahead(before), Ahead(after)) && InLoop(after, id, good)
    ensures InLoop(before, id, good)
  {
    hide Ahead;
    var i :| 0 <= i < |Ahead(after)| && Stale(Ahead(after)[i], id, good);
    assert Stale(Ahead(before)[|Ahead(before)| - |Ahead(after)| + i], id, good);
  }

  predicate ShrinksTo(before: seq<Entry>, after: seq<Entry>) {
    after == before || (before != [] && after == before[1..])
  }

  ghost predicate StaysInside(before: Proc, after: Proc) {
    Inside(after) && after.looping == before.looping && after.entries == before.entries
  }

  lemma BuildStays(s: Node, p: nat, w: World)
    requires p in s.procs && (s.procs[p].phase.Building? || s.procs[p].phase.Proving? || s.procs[p].phase.Caching?)
    ensures p in AfterMove(s, p, w).procs && StaysInside(s.procs[p], AfterMove(s, p, w).procs[p])
  {
    hide UpsertPcs;
  }

  lemma SendStays(s: Node, p: nat, w: World)
    requires p in s.procs
    requires var phase := s.procs[p].phase; phase.Sending? || phase.Deleting? || phase.Refusing? || phase.RefusalDeleting?
    ensures p in AfterMove(s, p, w).procs && StaysInside(s.procs[p], AfterMove(s, p, w).procs[p])
  {
    hide DeletePcs;
  }

  lemma ReleasingLeaves(s: Node, p: nat, w: World)
    requires p in s.procs && s.procs[p].phase.Releasing?
    ensures p in AfterMove(s, p, w).procs
    ensures var before, after := s.procs[p], AfterMove(s, p, w).procs[p];
      Ahead(after) == Ahead(before) && (after.phase.Noting? || after.phase.NextEntry? || after.phase.Finished?)
  {
  }

  /** Only a release leads out. */
  lemma InsideKeepsAhead(s: Node, p: nat, w: World)
    requires p in s.procs && Inside(s.procs[p])
    ensures p in AfterMove(s, p, w).procs
    ensures var after := AfterMove(s, p, w).procs[p];
      && Ahead(after) == Ahead(s.procs[p])
      && (Inside(after) || after.phase.Noting? || after.phase.NextEntry? || after.phase.Finished?)
  {
    if s.procs[p].phase.Releasing? {
      ReleasingLeaves(s, p, w);
    } else {
      hide AfterMove;
      var phase := s.procs[p].phase;
      if phase.Building? || phase.Proving? || phase.Caching? {
        BuildStays(s, p, w);
      } else {
        SendStays(s, p, w);
      }
    }
    hide AfterMove;
  }

  lemma LoopShrinksAhead(s: Node, p: nat, w: World)
    requires p in s.procs && !Reads(s.procs[p].phase) && !Inside(s.procs[p]) && Carries(s.procs[p])
    ensures p in AfterMove(s, p, w).procs
    ensures ShrinksTo(Ahead(s.procs[p]), Ahead(AfterMove(s, p, w).procs[p]))
  {
    hide DeletePcsById, CountPcsAttempt;
  }

  /** A step takes at most the first entry of what the loop has ahead. */
  lemma AheadShrinks(s: Node, p: nat, w: World)
    requires p in s.procs && !Reads(s.procs[p].phase) && Carries(s.procs[p])
    ensures p in AfterMove(s, p, w).procs
    ensures ShrinksTo(Ahead(s.procs[p]), Ahead(AfterMove(s, p, w).procs[p]))
  {
    if Inside(s.procs[p]) {
      InsideKeepsAhead(s, p, w);
    } else {
      LoopShrinksAhead(s, p, w);
    }
    hide AfterMove;
  }

  /** Apart from the reads, only the loop comes to a claim: with its next entry. */
  lemma ClaimsItsEntry(s: Node, p: nat, w: World)
    requires p in s.procs && !Reads(s.procs[p].phase) && !Inside(s.procs[p]) && Carries(s.procs[p])
    ensures p in AfterMove(s, p, w).procs
    ensures var before, after := s.procs[p], AfterMove(s, p, w).procs[p];
      after.phase.Claiming? ==>
        Ahead(before) != [] && after.id == Ahead(before)[0].id && after.job == Ahead(before)[0].row.job && after.job.requested
  {
    hide UpsertPcs, DeletePcs, DeletePcsById, CountPcsAttempt;
  }

  lemma NewProcWaitsForNothing(s: Node, step: Step, id: string, good: Job -> bool)
    requires Enabled(s, step) && !step.Move? && !step.Announce? && !step.Crash? && HoldsGood(s, id, good)
    ensures !Waits(Apply(s, step).procs[step.p], id, good)
  {
  }

  /** While the row is good, no step brings a bad job of `id` to wait in memory. */
  lemma NoNewWaiter(s: Node, step: Step, id: string, good: Job -> bool)
    requires Honest(s) && Enabled(s, step) && Current(s, step, id) && Keeps(good) && HoldsGood(s, id, good)
    requires OpenCallWrites(s, step, id) ==> good(s.procs[step.p].job)
    requires !SomeWaits(s, id, good)
    ensures !SomeWaits(Apply(s, step), id, good)
  {
    var next := Apply(s, step);
    if step.Move? {
      assert Carries(s.procs[step.p]);
      EveryMoveEffect(s, step.p, step.w);
      if Reads(s.procs[step.p].phase) {
        ReadBringsNoWaiter(s, step.p, step.w, id, good);
      } else {
        LoopBringsNoWaiter(s, step.p, step.w, id, good);
      }
    } else if !step.Announce? && !step.Crash? {
      NewProcWaitsForNothing(s, step, id, good);
    }
    hide AfterMove, Waits, LockEffect, Asked, Inside;
  }

  // ---------------------------------------------------------------------
  // A waiting job comes to be built
  // ---------------------------------------------------------------------

  /** The core and send calls fail, and of the storage calls all but a cache write. */
  function Stalling(proc: Proc): World {
    World(proc.phase.Caching?, false, true, CoreDown, 0)
  }

  /** The process is about to write a bad job into the row of `id`. */
  predicate CachesBad(proc: Proc, id: string, good: Job -> bool) {
    proc.phase.Caching? && proc.id == id && !good(proc.job)
  }

  /** Some process goes on while calls fail, and writes no bad job of `id`. */
  ghost predicate Stalls(s: Node, step: Step, id: string, good: Job -> bool) {
    Enabled(s, step) && step.Move? && step.w == Stalling(s.procs[step.p]) && !CachesBad(s.procs[step.p], id, good)
  }

  ghost predicate StallingRun(s: Node, steps: seq<Step>, id: string, good: Job -> bool)
    decreases |steps|
  {
    steps == [] || (Stalls(s, steps[0], id, good) && StallingRun(Apply(s, steps[0]), steps[1..], id, good))
  }

  lemma {:induction false} StallingIsRun(s: Node, steps: seq<Step>, id: string, good: Job -> bool)
    requires StallingRun(s, steps, id, good)
    ensures Run(s, steps)
    decreases |steps|
  {
    hide Apply, Enabled;
    if steps != [] {
      StallingIsRun(Apply(s, steps[0]), steps[1..], id, good);
    }
  }

  lemma {:induction false} StallingAppend(s: Node, steps: seq<Step>, more: seq<Step>, id: string, good: Job -> bool)
    requires StallingRun(s, steps, id, good) && StallingRun(RunTo(s, steps), more, id, good)
    ensures StallingRun(s, steps + more, id, good) && RunTo(s, steps + more) == RunTo(RunTo(s, steps), more)
    decreases |steps|
  {
    hide Apply, Stalls;
    if steps == [] {
      assert steps + more == more;
    } else {
      assert (steps + more)[0] == steps[0] && (steps + more)[1..] == steps[1..] + more;
      StallingAppend(Apply(s, steps[0]), steps[1..], more, id, good);
    }
  }

  /** What a stalling step leaves alone. */
  lemma StallSparesRow(s: Node, step: Step, id: string, good: Job -> bool)
    requires Stalls(s, step, id, good)
    ensures Current(s, step, id) && !DeletesRow(s, step, id) && !OpenCallWrites(s, step, id)
    ensures HoldsGood(s, id, good) ==> HoldsGood(Apply(s, step), id, good)
    ensures id in s.table.rows ==> id in Apply(s, step).table.rows
  {
    MoveTable(s, step.p, step.w);
    hide AfterMove;
  }

  lemma StallsOutwards(s: Node, p: nat)
    requires p in s.procs && Inside(s.procs[p])
    ensures var next := AfterMove(s, p, Stalling(s.procs[p]));
      && MoveEffect(s, p, next) && Remaining(next.procs[p]) < Remaining(s.procs[p]) && !next.procs[p].phase.Caching?
  {
    InsideEffect(s, p, Stalling(s.procs[p]));
    InsideGetsCloser(s, p, Stalling(s.procs[p]));
    StallsPastCaching(s, p);
    hide AfterMove, MoveEffect;
  }

  lemma StallsPastCaching(s: Node, p: nat)
    requires p in s.procs
    ensures p in AfterMove(s, p, Stalling(s.procs[p])).procs && !AfterMove(s, p, Stalling(s.procs[p])).procs[p].phase.Caching?
  {
    hide UpsertPcs, DeletePcs, DeletePcsById, CountPcsAttempt;
  }

  /** The process inside for `id` can be brought to its release. */
  lemma {:induction false} LetOut(s: Node, q: nat, id: string, good: Job -> bool) returns (steps: seq<Step>)
    requires q in s.procs && Inside(s.procs[q]) && s.procs[q].id == id && !CachesBad(s.procs[q], id, good)
    ensures StallingRun(s, steps, id, good)
    ensures var end := RunTo(s, steps);
      id !in end.inFlight && q in end.procs && end.procs == s.procs[q := end.procs[q]]
    decreases Remaining(s.procs[q])
  {
    var step := Move(q, Stalling(s.procs[q]));
    var next := AfterMove(s, q, step.w);
    StallsOutwards(s, q);
    assert Stalls(s, step, id, good) && Apply(s, step) == next;
    hide AfterMove, Stalls, Apply;
    if Inside(next.procs[q]) {
      steps := LetOut(next, q, id, good);
    } else {
      steps := [];
    }
    assert ([step] + steps)[1..] == steps;
    steps := [step] + steps;
  }

  /** How many own steps the loop needs at most until it turns to its next entry. */
  function ToNextEntry(proc: Proc): nat {
    match proc.phase
    case NextEntry => 0
    case PruneEntry => 1
    case Noting => 1
    case Claiming => 8
    case _ => Remaining(proc) + 1
  }

  /** The loop takes its next entry, and claims it if it is requested; or it comes closer to that. */
  ghost predicate LoopGoesOn(before: Proc, after: Proc) {
    if before.phase.NextEntry? then
      && Ahead(before) != [] && Ahead(after) == Ahead(before)[1..]
      && (Ahead(before)[0].row.job.requested ==>
            after.phase.Claiming? && after.id == Ahead(before)[0].id && after.job == Ahead(before)[0].row.job)
    else
      Ahead(after) == Ahead(before) && ToNextEntry(after) < ToNextEntry(before)
  }

  lemma InsideLoopGoesOn(s: Node, p: nat)
    requires p in s.procs && Inside(s.procs[p]) && Ahead(s.procs[p]) != []
    ensures var next := AfterMove(s, p, Stalling(s.procs[p]));
      p in next.procs && LoopGoesOn(s.procs[p], next.procs[p])
  {
    var proc, w := s.procs[p], Stalling(s.procs[p]);
    InsideKeepsAhead(s, p, w);
    InsideGetsCloser(s, p, w);
    hide AfterMove, Ahead;
  }

  lemma OutsideLoopGoesOn(s: Node, p: nat)
    requires p in s.procs && !Inside(s.procs[p]) && Carries(s.procs[p]) && Ahead(s.procs[p]) != []
    ensures var next := AfterMove(s, p, Stalling(s.procs[p]));
      p in next.procs && LoopGoesOn(s.procs[p], next.procs[p])
  {
    hide DeletePcsById, CountPcsAttempt;
  }

  lemma LoopStep(s: Node, p: nat, id: string, good: Job -> bool) returns (next: Node)
    requires p in s.procs && Carries(s.procs[p]) && Asked(s.procs[p])
    requires InLoop(s.procs[p], id, good) && !CachesBad(s.procs[p], id, good)
    ensures var step := Move(p, Stalling(s.procs[p])); Stalls(s, step, id, good) && next == Apply(s, step)
    ensures p in next.procs && next.procs == s.procs[p := next.procs[p]]
    ensures Carries(next.procs[p]) && Asked(next.procs[p]) && !CachesBad(next.procs[p], id, good)
    ensures LoopGoesOn(s.procs[p], next.procs[p])
  {
    var w := Stalling(s.procs[p]);
    next := AfterMove(s, p, w);
    assert Apply(s, Move(p, w)) == next;
    EveryMoveEffect(s, p, w);
    MoveCarries(s, p, w);
    StallsPastCaching(s, p);
    if Inside(s.procs[p]) {
      InsideLoopGoesOn(s, p);
    } else {
      OutsideLoopGoesOn(s, p);
    }
    hide AfterMove, Apply, LoopGoesOn, Asked, Inside;
  }

  lemma StaysInLoop(before: Proc, after: Proc, id: string, good: Job -> bool)
    requires InLoop(before, id, good) && LoopGoesOn(before, after)
    ensures AtClaim(after, id, good) || InLoop(after, id, good)
  {
    hide Ahead;
    var i :| 0 <= i < |Ahead(before)| && Stale(Ahead(before)[i], id, good);
    if before.phase.NextEntry? && i > 0 {
      assert Stale(Ahead(after)[i - 1], id, good);
    }
  }

  /** The retry loop comes to the claim of an entry it has ahead. */
  lemma {:induction false} LoopComesToClaim(s: Node, p: nat, id: string, good: Job -> bool) returns (steps: seq<Step>)
    requires p in s.procs && Carries(s.procs[p]) && Asked(s.procs[p])
    requires InLoop(s.procs[p], id, good) && !CachesBad(s.procs[p], id, good)
    ensures StallingRun(s, steps, id, good)
    ensures var end := RunTo(s, steps);
      p in end.procs && AtClaim(end.procs[p], id, good) && end.procs == s.procs[p := end.procs[p]]
    decreases |Ahead(s.procs[p])|, ToNextEntry(s.procs[p])
  {
    var step := Move(p, Stalling(s.procs[p]));
    var next := LoopStep(s, p, id, good);
    StaysInLoop(s.procs[p], next.procs[p], id, good);
    hide Apply, Stalls, InLoop, Carries, Asked, CachesBad, Ahead, ToNextEntry;
    if AtClaim(next.procs[p], id, good) {
      steps := [];
    } else {
      steps := LoopComesToClaim(next, p, id, good);
    }
    assert ([step] + steps)[1..] == steps;
    steps := [step] + steps;
  }

  lemma ClaimBuilds(s: Node, p: nat, id: string, good: Job -> bool)
    requires p in s.procs && AtClaim(s.procs[p], id, good) && id !in s.inFlight
    ensures var step := Move(p, Stalling(s.procs[p]));
      && Stalls(s, step, id, good)
      && Apply(s, step).procs == s.procs[p := s.procs[p].(phase := Building)]
  {
  }

  /** At its claim, with whoever holds the lock let out first, the job comes to be built. */
  lemma ClaimantBuilds(s: Node, p: nat, id: string, good: Job -> bool) returns (steps: seq<Step>)
    requires Exclusive(s) && p in s.procs && AtClaim(s.procs[p], id, good)
    requires forall q :: q in s.procs ==> !CachesBad(s.procs[q], id, good)
    ensures StallingRun(s, steps, id, good)
    ensures var end := RunTo(s, steps);
      p in end.procs && end.procs[p].phase.Building? && end.procs[p].id == id && !good(end.procs[p].job)
  {
    hide Stalls, Apply, CachesBad;
    steps := [];
    if id in s.inFlight {
      var q :| q in s.procs && Inside(s.procs[q]) && s.procs[q].id == id;
      steps := LetOut(s, q, id, good);
    }
    var free := RunTo(s, steps);
    var claim := Move(p, Stalling(free.procs[p]));
    ClaimBuilds(free, p, id, good);
    assert StallingRun(free, [claim], id, good) && RunTo(free, [claim]) == Apply(free, claim);
    StallingAppend(s, steps, [claim], id, good);
    steps := steps + [claim];
  }

  /** Whatever bad job of `id` waits in memory, some run brings it to be built. */
  lemma WaiterBuilds(s: Node, p: nat, id: string, good: Job -> bool) returns (steps: seq<Step>)
    requires Exclusive(s) && Honest(s) && p in s.procs && Waits(s.procs[p], id, good)
    requires forall q :: q in s.procs ==> !CachesBad(s.procs[q], id, good)
    ensures StallingRun(s, steps, id, good)
    ensures var end := RunTo(s, steps);
      p in end.procs && end.procs[p].phase.Building? && end.procs[p].id == id && !good(end.procs[p].job)
  {
    if AtClaim(s.procs[p], id, good) {
      steps := ClaimantBuilds(s, p, id, good);
    } else {
      assert Carries(s.procs[p]) && Asked(s.procs[p]);
      steps := LoopComesToClaim(s, p, id, good);
      var claiming := RunTo(s, steps);
      StallingIsRun(s, steps, id, good);
      MutualExclusion(s, steps);
      hide StallingRun, RunTo, Exclusive;
      var more := ClaimantBuilds(claiming, p, id, good);
      StallingAppend(s, steps, more, id, good);
      steps := steps + more;
    }
  }
}

/**
 Which retained proofs the retry loop gives up (src/application/pcs_outbox.rs):
 exactly those a round has listed unrequested and old enough.
 */
module PcsPrunes {
  import opened Wrappers
  import opened Storage
  import opened PcsOutbox
  import opened PcsLifetime
  import opened PcsCarriers

  /** Listed unrequested, at an age of at least the loop's limit by the clock of the round. */
  predicate Aged(entry: Entry, round: Round) {
    !entry.row.job.requested && round.now - entry.row.createdAt >= round.ttl
  }

  // ---------------------------------------------------------------------
  // A row id names one row for good
  // ---------------------------------------------------------------------

  /** The entry's row id is spent, and if a row still has it, it is the listed one. */
  ghost predicate Names(t: PcsTable, entry: Entry) {
    && entry.row.rowId < t.nextId
    && forall id :: id in t.rows && t.rows[id].rowId == entry.row.rowId ==>
         id == entry.id && t.rows[id].createdAt == entry.row.createdAt
  }

  ghost predicate DistinctRowIds(t: PcsTable) {
    && (forall id :: id in t.rows ==> t.rows[id].rowId < t.nextId)
    && (forall a, b :: a in t.rows && b in t.rows && a != b ==> t.rows[a].rowId != t.rows[b].rowId)
  }

  ghost predicate AllNamed(t: PcsTable, proc: Proc) {
    forall entry :: entry in proc.entries ==> Names(t, entry)
  }

  ghost predicate Named(s: Node) {
    DistinctRowIds(s.table) && forall p :: p in s.procs ==> AllNamed(s.table, s.procs[p])
  }

  lemma TableKeepsNames(t: PcsTable, proc: Proc, w: World, entry: Entry)
    requires DistinctRowIds(t)
    ensures DistinctRowIds(TableAfter(t, proc, w))
    ensures Names(t, entry) ==> Names(TableAfter(t, proc, w), entry)
  {
  }

  /** A step leaves a process its entries, at most without the first, and the clock of its round. */
  ghost predicate KeepsList(before: Proc, after: Proc) {
    && (after.entries == before.entries || (before.entries != [] && after.entries == before.entries[1..]))
    && after.round == before.round
  }

  lemma InsideKeepsList(s: Node, p: nat, w: World)
    requires p in s.procs && Inside(s.procs[p])
    ensures p in AfterMove(s, p, w).procs && KeepsList(s.procs[p], AfterMove(s, p, w).procs[p])
  {
    hide UpsertPcs, DeletePcs;
  }

  lemma ReadKeepsList(s: Node, p: nat, w: World)
    requires p in s.procs && Reads(s.procs[p].phase)
    ensures p in AfterMove(s, p, w).procs && KeepsList(s.procs[p], AfterMove(s, p, w).procs[p])
  {
    hide UpsertPcs;
  }

  lemma LoopKeepsList(s: Node, p: nat, w: World)
    requires p in s.procs && !Inside(s.procs[p]) && !Reads(s.procs[p].phase)
    ensures p in AfterMove(s, p, w).procs && KeepsList(s.procs[p], AfterMove(s, p, w).procs[p])
  {
    hide DeletePcsById, CountPcsAttempt;
  }

  lemma MoveKeepsList(s: Node, p: nat, w: World)
    requires p in s.procs
    ensures p in AfterMove(s, p, w).procs && KeepsList(s.procs[p], AfterMove(s, p, w).procs[p])
  {
    hide AfterMove, KeepsList;
    if Inside(s.procs[p]) {
      InsideKeepsList(s, p, w);
    } else if Reads(s.procs[p].phase) {
      ReadKeepsList(s, p, w);
    } else {
      LoopKeepsList(s, p, w);
    }
  }

  lemma StepKeepsNamed(s: Node, step: Step)
    requires Named(s) && Enabled(s, step)
    ensures Named(Apply(s, step))
  {
    if step.Move? {
      var p, w := step.p, step.w;
      EveryMoveEffect(s, p, w);
      MoveKeepsList(s, p, w);
      MoveTable(s, p, w);
      hide AfterMove, TableAfter, LockEffect, Asked, Names, DistinctRowIds;
      TableKeepsNames(s.table, s.procs[p], w, Entry("", PcsRow(0, NO_JOB, 0, 0)));
      var next := AfterMove(s, p, w);
      forall q, entry | q in next.procs && entry in next.procs[q].entries ensures Names(next.table, entry) {
        assert entry in s.procs[q].entries;
        assert AllNamed(s.table, s.procs[q]);
        TableKeepsNames(s.table, s.procs[p], w, entry);
      }
    } else {
      OtherStepKeepsNamed(s, step);
    }
  }

  lemma OtherStepKeepsNamed(s: Node, step: Step)
    requires Named(s) && Enabled(s, step) && !step.Move?
    ensures Named(Apply(s, step))
  {
    var next := Apply(s, step);
    forall q, entry | q in next.procs && entry in next.procs[q].entries ensures Names(next.table, entry) {
      if q in s.procs && next.procs[q] == s.procs[q] {
        assert AllNamed(s.table, s.procs[q]);
      }
    }
  }

  // ---------------------------------------------------------------------
  // Only what was listed old is pruned
  // ---------------------------------------------------------------------

  /** One round of the run has listed this entry: it was its row's content at that moment. */
  ghost predicate Listed(done: seq<Step>, entry: Entry, round: Round) {
    exists i :: 0 <= i < |done| && ListedAt(done, i, entry, round)
  }

  ghost predicate ListedAt(done: seq<Step>, i: nat, entry: Entry, round: Round)
    requires i < |done|
  {
    && done[i].StartRetry? && done[i].round == round && entry in done[i].entries
    && var rows := RunTo(INITIAL, done[..i]).table.rows; entry.id in rows && rows[entry.id] == entry.row
  }

  lemma ListedStays(done: seq<Step>, step: Step, entry: Entry, round: Round)
    requires Listed(done, entry, round)
    ensures Listed(done + [step], entry, round)
  {
    hide RunTo;
    var i :| 0 <= i < |done| && ListedAt(done, i, entry, round);
    assert (done + [step])[..i] == done[..i];
    assert ListedAt(done + [step], i, entry, round);
  }

  ghost predicate AllListed(done: seq<Step>, s: Node) {
    forall p, entry :: p in s.procs && entry in s.procs[p].entries ==> Listed(done, entry, s.procs[p].round)
  }

  lemma StepKeepsListed(done: seq<Step>, s: Node, step: Step)
    requires RunTo(INITIAL, done) == s && AllListed(done, s) && Enabled(s, step)
    ensures AllListed(done + [step], Apply(s, step))
  {
    hide RunTo, AfterMove, Listed;
    var next := Apply(s, step);
    if step.Move? {
      EveryMoveEffect(s, step.p, step.w);
      MoveKeepsList(s, step.p, step.w);
    }
    hide LockEffect, Asked, Inside;
    forall q, entry | q in next.procs && entry in next.procs[q].entries ensures Listed(done + [step], entry, next.procs[q].round) {
      if q in s.procs {
        assert entry in s.procs[q].entries && next.procs[q].round == s.procs[q].round;
        ListedStays(done, step, entry, s.procs[q].round);
      } else {
        NowListed(done, s, step, entry);
      }
    }
  }

  lemma NowListed(done: seq<Step>, s: Node, step: Step, entry: Entry)
    requires RunTo(INITIAL, done) == s && Enabled(s, step) && step.StartRetry? && entry in step.entries
    ensures Listed(done + [step], entry, step.round)
  {
    var longer := done + [step];
    assert longer[..|done|] == done && longer[|done|] == step;
    hide RunTo;
    assert ListedAt(longer, |done|, entry, step.round);
  }

  lemma {:induction false} RunKeepsListed(done: seq<Step>, s: Node, rest: seq<Step>)
    requires Run(INITIAL, done) && RunTo(INITIAL, done) == s && AllListed(done, s) && Named(s) && Run(s, rest)
    ensures AllListed(done + rest, RunTo(s, rest)) && Named(RunTo(s, rest))
    decreases |rest|
  {
    hide Enabled, Apply, AllListed, Named;
    if rest == [] {
      assert done + rest == done;
    } else {
      RunSnoc(INITIAL, done, rest[0]);
      StepKeepsListed(done, s, rest[0]);
      StepKeepsNamed(s, rest[0]);
      RunKeepsListed(done + [rest[0]], Apply(s, rest[0]), rest[1..]);
      assert (done + [rest[0]]) + rest[1..] == done + rest;
    }
  }

  /**
   Over every run: whatever row a prune takes, some round had listed that very
   row, unrequested and at an age of at least the limit.
   */
  lemma OnlyAgedRowsArePruned(steps: seq<Step>, step: Step, id: string)
    requires Run(INITIAL, steps) && Enabled(RunTo(INITIAL, steps), step) && PrunesRow(RunTo(INITIAL, steps), step, id)
    ensures var row := RunTo(INITIAL, steps).table.rows[id];
      exists listed, round :: Listed(steps, Entry(id, listed), round) && Aged(Entry(id, listed), round)
                              && listed.rowId == row.rowId && listed.createdAt == row.createdAt
  {
    var s := RunTo(INITIAL, steps);
    assert Run(INITIAL, []) && RunTo(INITIAL, []) == INITIAL;
    RunKeepsListed([], INITIAL, steps);
    assert [] + steps == steps;
    InitiallyHonest();
    RunKeepsHonest(INITIAL, steps);
    hide Run, RunTo, Listed, Enabled;
    var proc := s.procs[step.p];
    assert Carries(proc) && AllNamed(s.table, proc);
    var entry := proc.entries[0];
    assert entry in proc.entries && Names(s.table, entry);
    assert entry == Entry(id, entry.row);
    assert Listed(steps, Entry(id, entry.row), proc.round) && Aged(Entry(id, entry.row), proc.round);
  }

  // ---------------------------------------------------------------------
  // Whatever was listed old is brought to its prune
  // ---------------------------------------------------------------------

  /** The loop has the entry ahead, or is at its prune. */
  ghost predicate Awaits(proc: Proc, entry: Entry) {
    entry in Ahead(proc) || (proc.phase.PruneEntry? && proc.entries != [] && proc.entries[0] == entry)
  }

  /** The step is the prune of the entry by `p`. */
  ghost predicate PrunesEntry(s: Node, step: Step, p: nat, entry: Entry) {
    step.Move? && step.p == p && p in s.procs && s.procs[p].phase.PruneEntry? && s.procs[p].entries != [] && s.procs[p].entries[0] == entry
  }

  ghost predicate PrunesAlong(s: Node, steps: seq<Step>, p: nat, entry: Entry)
    decreases |steps|
  {
    steps != [] && (PrunesEntry(s, steps[0], p, entry) || PrunesAlong(Apply(s, steps[0]), steps[1..], p, entry))
  }

  ghost predicate NoCrash(steps: seq<Step>) {
    forall i :: 0 <= i < |steps| ==> !steps[i].Crash?
  }

  lemma OwnStepAwaits(s: Node, p: nat, w: World, entry: Entry)
    requires p in s.procs && Carries(s.procs[p]) && Awaits(s.procs[p], entry) && Aged(entry, s.procs[p].round)
    requires !s.procs[p].phase.PruneEntry? || s.procs[p].entries[0] != entry
    ensures p in AfterMove(s, p, w).procs && Awaits(AfterMove(s, p, w).procs[p], entry)
  {
    assert !Reads(s.procs[p].phase);
    AheadShrinks(s, p, w);
    if s.procs[p].phase.NextEntry? {
      NextEntryTakesOne(s, p, w);
    } else if Inside(s.procs[p]) {
      InsideKeepsAhead(s, p, w);
    } else {
      BetweenKeepsAhead(s, p, w);
    }
    hide AfterMove;
  }

  lemma NextEntryTakesOne(s: Node, p: nat, w: World)
    requires p in s.procs && s.procs[p].phase.NextEntry? && s.procs[p].looping && s.procs[p].entries != []
    ensures p in AfterMove(s, p, w).procs
    ensures var before, after := s.procs[p], AfterMove(s, p, w).procs[p];
      && Ahead(after) == Ahead(before)[1..]
      && (after.phase.PruneEntry? <==> Aged(before.entries[0], before.round))
      && (after.phase.PruneEntry? ==> after.entries == before.entries)
      && (after.phase.Claiming? <==> before.entries[0].row.job.requested)
  {
  }

  lemma BetweenKeepsAhead(s: Node, p: nat, w: World)
    requires p in s.procs && (s.procs[p].phase.Claiming? || s.procs[p].phase.PruneEntry? || s.procs[p].phase.Noting? || s.procs[p].phase.Finished?)
    ensures p in AfterMove(s, p, w).procs && Ahead(AfterMove(s, p, w).procs[p]) == Ahead(s.procs[p])
  {
    hide DeletePcsById, CountPcsAttempt;
  }

  /**
   A round that comes to its end without a crash has pruned every entry it had
   listed unrequested and old enough.
   */
  lemma {:induction false} EveryAgedEntryIsPruned(s: Node, steps: seq<Step>, p: nat, entry: Entry)
    requires Honest(s) && Run(s, steps) && NoCrash(steps)
    requires p in s.procs && Awaits(s.procs[p], entry) && Aged(entry, s.procs[p].round)
    requires p in RunTo(s, steps).procs && RunTo(s, steps).procs[p].phase.Finished?
    ensures PrunesAlong(s, steps, p, entry)
    decreases |steps|
  {
    assert Carries(s.procs[p]);
    if steps != [] && !PrunesEntry(s, steps[0], p, entry) {
      var next := Apply(s, steps[0]);
      StepAwaits(s, steps[0], p, entry);
      StepKeepsHonest(s, steps[0]);
      assert forall i :: 0 <= i < |steps[1..]| ==> steps[1..][i] == steps[i + 1];
      hide Enabled, Apply, Honest, Awaits, Aged;
      EveryAgedEntryIsPruned(next, steps[1..], p, entry);
    }
  }

  lemma StepAwaits(s: Node, step: Step, p: nat, entry: Entry)
    requires Honest(s) && Enabled(s, step) && !step.Crash? && !PrunesEntry(s, step, p, entry)
    requires p in s.procs && Awaits(s.procs[p], entry) && Aged(entry, s.procs[p].round)
    ensures p in Apply(s, step).procs && Awaits(Apply(s, step).procs[p], entry) && Apply(s, step).procs[p].round == s.procs[p].round
  {
    hide AfterMove;
    if step.Move? {
      EveryMoveEffect(s, step.p, step.w);
      MoveKeepsList(s, step.p, step.w);
      assert Carries(s.procs[p]);
      if step.p == p {
        OwnStepAwaits(s, p, step.w, entry);
      }
    }
    hide Awaits, Aged, LockEffect, Asked;
  }

  /** So does every round for every such row there was when it began. */
  lemma EveryAgedRowIsPruned(s: Node, p: nat, entries: seq<Entry>, round: Round, steps: seq<Step>, id: string)
    requires Honest(s) && Enabled(s, StartRetry(p, entries, round))
    requires id in s.table.rows && Aged(Entry(id, s.table.rows[id]), round)
    requires var begun := Apply(s, StartRetry(p, entries, round));
      Run(begun, steps) && NoCrash(steps) && p in RunTo(begun, steps).procs && RunTo(begun, steps).procs[p].phase.Finished?
    ensures PrunesAlong(Apply(s, StartRetry(p, entries, round)), steps, p, Entry(id, s.table.rows[id]))
  {
    StepKeepsHonest(s, StartRetry(p, entries, round));
    var begun := Apply(s, StartRetry(p, entries, round));
    assert Awaits(begun.procs[p], Entry(id, s.table.rows[id]));
    EveryAgedEntryIsPruned(begun, steps, p, Entry(id, s.table.rows[id]));
  }

  /** Where the storage call succeeds, a prune leaves no row with the listed row id. */
  lemma PruneDeletes(s: Node, step: Step, p: nat, entry: Entry)
    requires PrunesEntry(s, step, p, entry) && Enabled(s, step) && step.w.storageOk
    ensures forall id :: id in Apply(s, step).table.rows ==> Apply(s, step).table.rows[id].rowId != entry.row.rowId
    ensures forall id :: id in s.table.rows && s.table.rows[id].rowId != entry.row.rowId ==>
              id in Apply(s, step).table.rows && Apply(s, step).table.rows[id] == s.table.rows[id]
  {
    MoveTable(s, p, step.w);
    hide AfterMove;
  }

  /** How many own steps a round has at most before it ends. */
  function StepsLeft(proc: Proc): nat {
    9 * |Ahead(proc)| + match proc.phase
      case Finished => 0
      case NextEntry => 1
      case PruneEntry => 2
      case Noting => 2
      case Claiming => 9
      case _ => Remaining(proc) + 2
  }

  /** Every round ends: whatever the calls answer, each own step brings it closer. */
  lemma EveryRoundEnds(s: Node, p: nat, w: World)
    requires p in s.procs && s.procs[p].looping && Carries(s.procs[p]) && !s.procs[p].phase.Finished?
    ensures p in AfterMove(s, p, w).procs && StepsLeft(AfterMove(s, p, w).procs[p]) < StepsLeft(s.procs[p])
  {
    if Inside(s.procs[p]) {
      InsideKeepsAhead(s, p, w);
      InsideGetsCloser(s, p, w);
      InsideLeavesToLoop(s, p, w);
      hide AfterMove, Ahead;
    } else {
      OutsideGetsCloser(s, p, w);
    }
  }

  lemma InsideLeavesToLoop(s: Node, p: nat, w: World)
    requires p in s.procs && Inside(s.procs[p])
    ensures p in AfterMove(s, p, w).procs && !Reads(AfterMove(s, p, w).procs[p].phase)
  {
    InsideKeepsAhead(s, p, w);
    hide AfterMove;
  }

  lemma OutsideGetsCloser(s: Node, p: nat, w: World)
    requires p in s.procs && s.procs[p].looping && Carries(s.procs[p]) && !s.procs[p].phase.Finished? && !Inside(s.procs[p])
    ensures p in AfterMove(s, p, w).procs && StepsLeft(AfterMove(s, p, w).procs[p]) < StepsLeft(s.procs[p])
  {
    hide DeletePcsById, CountPcsAttempt;
  }

  /** A failed retry counts one attempt on the row it was listed as, if that is still there, and touches nothing else. */
  lemma NotingCountsOneAttempt(s: Node, p: nat, w: World)
    requires Named(s) && p in s.procs && s.procs[p].phase.Noting? && s.procs[p].entries != [] && w.storageOk
    ensures var entry := s.procs[p].entries[0];
            var rows := s.table.rows;
            AfterMove(s, p, w).table.rows ==
              if entry.id in rows && rows[entry.id].rowId == entry.row.rowId
              then rows[entry.id := rows[entry.id].(attempts := rows[entry.id].attempts + 1)]
              else rows
  {
    var entry := s.procs[p].entries[0];
    assert AllNamed(s.table, s.procs[p]) && Names(s.table, entry);
    MoveTable(s, p, w);
    hide AfterMove, Named;
  }
}

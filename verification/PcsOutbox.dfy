/**
 The leaf PCS outbox (src/application/pcs_outbox.rs): the result path, PCS
 requests, open-call requests and the retry loop work on one table and one
 in-flight set. Each lock, storage call, core call and send is one step.
 */
module PcsOutbox {
  import opened Wrappers
  import opened Storage

  /** Looks for a retained proof this often before giving up. */
  const LOOKUP_ATTEMPTS: nat := 10

  datatype Entry = Entry(id: string, row: PcsRow)

  /** What a process does next. */
  datatype Phase =
    | RetainRead
    | RetainWrite
    | RequestRead(left: nat)
    | RequestWrite
    | OpenCheck(hash: string)
    | OpenWrite
    | NextEntry
    | PruneEntry
    | Claiming
    | Building
    | Proving
    | Caching
    | Sending
    | Deleting
    | Refusing
    | RefusalDeleting
    | Releasing(failed: bool)
    | Noting
    | Finished

  /** A round of the retry loop reads the clock once; `ttl` is the loop's setting. */
  datatype Round = Round(now: int, ttl: int)

  const NO_ROUND := Round(0, 0)

  /** `entries` is what the retry loop has left in this round; its head is the current one. */
  datatype Proc = Proc(id: string, phase: Phase, job: Job, seen: Option<PcsRow>, looping: bool, entries: seq<Entry>, round: Round)

  datatype Proved = Built(bundle: string) | CoreDown | MemoryRefusal | HashMismatch | OtherError

  /** What the world answers to one step. */
  datatype World = World(storageOk: bool, sendOk: bool, backoff: bool, proved: Proved, now: int)

  /** `acked` counts the acknowledged sends of each sub-task; no step looks at it. */
  datatype Node = Node(
    table: PcsTable,
    inFlight: set<string>,
    openCalls: map<string, string>,
    procs: map<nat, Proc>,
    acked: multiset<string>)

  const INITIAL := Node(NO_PCS, {}, map[], map[], multiset{})

  const NO_JOB := Job("", false, None, None)

  function Row(s: Node, id: string): Option<PcsRow> {
    if id in s.table.rows then Some(s.table.rows[id]) else None
  }

  // ---------------------------------------------------------------------
  // One step of one process
  // ---------------------------------------------------------------------

  function SetProc(s: Node, p: nat, proc: Proc): Node {
    s.(procs := s.procs[p := proc])
  }

  function GoTo(s: Node, p: nat, proc: Proc, phase: Phase): Node {
    SetProc(s, p, proc.(phase := phase))
  }

  /** The end of one job: the retry loop turns to its next entry. */
  function Leave(proc: Proc): Proc {
    if proc.looping && proc.entries != []
    then proc.(phase := NextEntry, entries := proc.entries[1..])
    else proc.(phase := Finished)
  }

  /** `retain_after_result`: a won request and a cached bundle are kept. */
  function Retained(proof: string, seen: Option<PcsRow>): Job {
    match seen
    case None => Job(proof, false, None, None)
    case Some(row) => Job(proof, row.job.requested, row.job.bundle, row.job.openCall)
  }

  /** A failing read counts as no row. */
  function AfterRetainRead(s: Node, p: nat, proc: Proc, w: World): Node {
    var seen := if w.storageOk then Row(s, proc.id) else None;
    SetProc(s, p, proc.(phase := RetainWrite, job := Retained(proc.job.proof, seen), seen := seen))
  }

  function AfterRetainWrite(s: Node, p: nat, proc: Proc, w: World): Node {
    if !w.storageOk then
      GoTo(s, p, proc, Finished)
    else
      GoTo(s, p, proc, if proc.job.requested then Claiming else Finished).(table := UpsertPcs(s.table, proc.id, proc.job, w.now))
  }

  function AfterRequestRead(s: Node, p: nat, proc: Proc, left: nat, w: World): Node {
    if !w.storageOk then
      GoTo(s, p, proc, Finished)
    else
      match Row(s, proc.id)
      case None => GoTo(s, p, proc, if left <= 1 then Finished else RequestRead(left - 1))
      case Some(row) =>
        SetProc(s, p, proc.(phase := if row.job.requested then Claiming else RequestWrite,
                            job := row.job.(requested := true),
                            seen := Some(row)))
  }

  /** Storing a job that is to be built next. */
  function AfterClaimWrite(s: Node, p: nat, proc: Proc, w: World): Node {
    if !w.storageOk
    then GoTo(s, p, proc, Finished)
    else GoTo(s, p, proc, Claiming).(table := UpsertPcs(s.table, proc.id, proc.job, w.now))
  }

  /** An open call overwrites the job; it needs the announced hash. */
  function AfterOpenCheck(s: Node, p: nat, proc: Proc, hash: string): Node {
    if hash == "" || proc.id !in s.openCalls || s.openCalls[proc.id] != hash
    then GoTo(s, p, proc, Finished)
    else SetProc(s, p, proc.(phase := OpenWrite, job := Job("", true, None, Some(hash))))
  }

  function AfterNextEntry(s: Node, p: nat, proc: Proc): Node {
    if proc.entries == [] then
      GoTo(s, p, proc, Finished)
    else
      var entry := proc.entries[0];
      if entry.row.job.requested then
        SetProc(s, p, proc.(id := entry.id, phase := Claiming, job := entry.row.job, seen := Some(entry.row)))
      else if proc.round.now - entry.row.createdAt >= proc.round.ttl then
        SetProc(s, p, proc.(id := entry.id, phase := PruneEntry, job := entry.row.job, seen := Some(entry.row)))
      else
        SetProc(s, p, Leave(proc))
  }

  function AfterPruneEntry(s: Node, p: nat, proc: Proc, w: World): Node {
    if w.storageOk && proc.entries != []
    then SetProc(s, p, Leave(proc)).(table := DeletePcsById(s.table, proc.entries[0].row.rowId))
    else SetProc(s, p, Leave(proc))
  }

  /** `claim_inflight` */
  function AfterClaiming(s: Node, p: nat, proc: Proc): Node {
    if proc.id in s.inFlight
    then SetProc(s, p, Leave(proc))
    else GoTo(s, p, proc, Building).(inFlight := s.inFlight + {proc.id})
  }

  function AfterBuilding(s: Node, p: nat, proc: Proc, w: World): Node {
    if proc.job.bundle.Some? then GoTo(s, p, proc, Sending)
    else if w.backoff then GoTo(s, p, proc, Releasing(false))
    else GoTo(s, p, proc, Proving)
  }

  function AfterProving(s: Node, p: nat, proc: Proc, w: World): Node {
    match w.proved
    case Built(bundle) => SetProc(s, p, proc.(phase := Caching, job := proc.job.(bundle := Some(bundle))))
    case CoreDown => GoTo(s, p, proc, Releasing(false))
    case MemoryRefusal => GoTo(s, p, proc, Refusing)
    case HashMismatch => GoTo(s, p, proc, if proc.job.openCall.Some? then Refusing else Releasing(true))
    case OtherError => GoTo(s, p, proc, Releasing(true))
  }

  /** The bundle is stored before it is sent. */
  function AfterCaching(s: Node, p: nat, proc: Proc, w: World): Node {
    if w.storageOk
    then GoTo(s, p, proc, Sending).(table := UpsertPcs(s.table, proc.id, proc.job, w.now))
    else GoTo(s, p, proc, Releasing(true))
  }

  /** A send returns Ok once the orchestrator has acknowledged. */
  function AfterSending(s: Node, p: nat, proc: Proc, done: Phase, w: World): Node {
    if w.sendOk
    then GoTo(s, p, proc, done).(acked := s.acked + multiset{proc.id})
    else GoTo(s, p, proc, Releasing(true))
  }

  function AfterDeleting(s: Node, p: nat, proc: Proc, forget: bool, w: World): Node {
    if w.storageOk
    then GoTo(s, p, proc, Releasing(false)).(
           table := DeletePcs(s.table, proc.id),
           openCalls := if forget then s.openCalls - {proc.id} else s.openCalls)
    else GoTo(s, p, proc, Releasing(true))
  }

  /** `release_inflight` */
  function AfterReleasing(s: Node, p: nat, proc: Proc, failed: bool): Node {
    SetProc(s, p, if proc.looping && failed then proc.(phase := Noting) else Leave(proc)).(inFlight := s.inFlight - {proc.id})
  }

  function AfterNoting(s: Node, p: nat, proc: Proc, w: World): Node {
    if w.storageOk && proc.entries != []
    then SetProc(s, p, Leave(proc)).(table := CountPcsAttempt(s.table, proc.entries[0].row.rowId))
    else SetProc(s, p, Leave(proc))
  }

  function AfterMove(s: Node, p: nat, w: World): Node
    requires p in s.procs
  {
    var proc := s.procs[p];
    match proc.phase
    case RetainRead => AfterRetainRead(s, p, proc, w)
    case RetainWrite => AfterRetainWrite(s, p, proc, w)
    case RequestRead(left) => AfterRequestRead(s, p, proc, left, w)
    case RequestWrite => AfterClaimWrite(s, p, proc, w)
    case OpenCheck(hash) => AfterOpenCheck(s, p, proc, hash)
    case OpenWrite => AfterClaimWrite(s, p, proc, w)
    case NextEntry => AfterNextEntry(s, p, proc)
    case PruneEntry => AfterPruneEntry(s, p, proc, w)
    case Claiming => AfterClaiming(s, p, proc)
    case Building => AfterBuilding(s, p, proc, w)
    case Proving => AfterProving(s, p, proc, w)
    case Caching => AfterCaching(s, p, proc, w)
    case Sending => AfterSending(s, p, proc, Deleting, w)
    case Deleting => AfterDeleting(s, p, proc, proc.job.openCall.Some?, w)
    case Refusing => AfterSending(s, p, proc, RefusalDeleting, w)
    case RefusalDeleting => AfterDeleting(s, p, proc, true, w)
    case Releasing(failed) => AfterReleasing(s, p, proc, failed)
    case Noting => AfterNoting(s, p, proc, w)
    case Finished => s
  }

  // ---------------------------------------------------------------------
  // Steps and runs
  // ---------------------------------------------------------------------

  datatype Step =
    | StartRetain(p: nat, id: string, proof: string)
    | StartRequest(p: nat, id: string)
    | StartOpenCall(p: nat, id: string, hash: string)
    | StartRetry(p: nat, entries: seq<Entry>, round: Round)
    | Announce(id: string, hash: string)
    | Move(p: nat, w: World)
    | Crash

  /** `SELECT … FROM pending_pcs`: every row once. */
  ghost predicate Lists(entries: seq<Entry>, rows: map<string, PcsRow>) {
    && (forall i :: 0 <= i < |entries| ==> entries[i].id in rows && rows[entries[i].id] == entries[i].row)
    && (forall id :: id in rows ==> Entry(id, rows[id]) in entries)
    && (forall i, j :: 0 <= i < j < |entries| ==> entries[i].id != entries[j].id)
  }

  ghost predicate Enabled(s: Node, step: Step) {
    match step
    case StartRetain(p, _, _) => p !in s.procs
    case StartRequest(p, _) => p !in s.procs
    case StartOpenCall(p, _, _) => p !in s.procs
    case StartRetry(p, entries, _) => p !in s.procs && Lists(entries, s.table.rows)
    case Announce(_, _) => true
    case Move(p, _) => p in s.procs && !s.procs[p].phase.Finished?
    case Crash => true
  }

  /** The state after a step; a step that is not enabled changes nothing. */
  ghost function Apply(s: Node, step: Step): Node {
    if !Enabled(s, step) then s else
    match step
    case StartRetain(p, id, proof) => SetProc(s, p, Proc(id, RetainRead, NO_JOB.(proof := proof), None, false, [], NO_ROUND))
    case StartRequest(p, id) => SetProc(s, p, Proc(id, RequestRead(LOOKUP_ATTEMPTS), NO_JOB, None, false, [], NO_ROUND))
    case StartOpenCall(p, id, hash) => SetProc(s, p, Proc(id, OpenCheck(hash), NO_JOB, None, false, [], NO_ROUND))
    case StartRetry(p, entries, round) => SetProc(s, p, Proc("", NextEntry, NO_JOB, None, true, entries, round))
    case Announce(id, hash) => s.(openCalls := s.openCalls[id := hash])
    case Move(p, w) => AfterMove(s, p, w)
    case Crash => Node(s.table, {}, map[], map[], s.acked)
  }

  ghost predicate Run(s: Node, steps: seq<Step>)
    decreases |steps|
  {
    steps == [] || (Enabled(s, steps[0]) && Run(Apply(s, steps[0]), steps[1..]))
  }

  ghost function RunTo(s: Node, steps: seq<Step>): Node
    decreases |steps|
  {
    if steps == [] then s else RunTo(Apply(s, steps[0]), steps[1..])
  }

  ghost predicate Reached(s: Node) {
    exists steps :: Run(INITIAL, steps) && RunTo(INITIAL, steps) == s
  }

  lemma {:induction false} RunSnoc(s: Node, steps: seq<Step>, step: Step)
    requires Run(s, steps) && Enabled(RunTo(s, steps), step)
    ensures Run(s, steps + [step]) && RunTo(s, steps + [step]) == Apply(RunTo(s, steps), step)
    decreases |steps|
  {
    hide Enabled, Apply;
    var longer := steps + [step];
    if steps == [] {
      assert longer[0] == step && longer[1..] == [];
    } else {
      assert longer[0] == steps[0] && longer[1..] == steps[1..] + [step];
      RunSnoc(Apply(s, steps[0]), steps[1..], step);
    }
  }

  lemma Onward(s: Node, step: Step)
    requires Reached(s) && Enabled(s, step)
    ensures Reached(Apply(s, step))
  {
    hide Enabled, Apply;
    var steps :| Run(INITIAL, steps) && RunTo(INITIAL, steps) == s;
    RunSnoc(INITIAL, steps, step);
  }

  lemma StartIsReached()
    ensures Reached(INITIAL)
  {
    assert Run(INITIAL, []) && RunTo(INITIAL, []) == INITIAL;
  }

  // ---------------------------------------------------------------------
  // Mutual exclusion
  // ---------------------------------------------------------------------

  /** Between a successful claim and its release. */
  predicate Inside(proc: Proc) {
    match proc.phase
    case Building | Proving | Caching | Sending | Deleting | Refusing | RefusalDeleting | Releasing(_) => true
    case _ => false
  }

  ghost predicate Exclusive(s: Node) {
    && (forall p :: p in s.procs && Inside(s.procs[p]) ==> s.procs[p].id in s.inFlight)
    && (forall p, q :: p in s.procs && q in s.procs && p != q && Inside(s.procs[p]) && Inside(s.procs[q]) ==>
          s.procs[p].id != s.procs[q].id)
    && (forall id :: id in s.inFlight ==> exists p :: p in s.procs && Inside(s.procs[p]) && s.procs[p].id == id)
  }

  /** From the claim on, the job is one the orchestrator has asked for. */
  predicate Asked(proc: Proc) {
    proc.phase.Claiming? || proc.phase.RequestWrite? || proc.phase.OpenWrite? || Inside(proc) ==> proc.job.requested
  }

  ghost predicate AllAsked(s: Node) {
    forall p :: p in s.procs ==> Asked(s.procs[p])
  }

  /** What one step of process `p` does to the in-flight set. */
  ghost predicate LockEffect(s: Node, p: nat, next: Node)
    requires p in s.procs && p in next.procs
  {
    var before, after := s.procs[p], next.procs[p];
    if Inside(before) then
      if Inside(after)
      then next.inFlight == s.inFlight && after.id == before.id
      else before.phase.Releasing? && next.inFlight == s.inFlight - {before.id}
    else
      if Inside(after)
      then before.phase.Claiming? && after.id == before.id && before.id !in s.inFlight && next.inFlight == s.inFlight + {before.id}
      else next.inFlight == s.inFlight
  }

  ghost predicate MoveEffect(s: Node, p: nat, next: Node) {
    && p in s.procs && p in next.procs
    && next.procs == s.procs[p := next.procs[p]]
    && LockEffect(s, p, next)
    && (Asked(s.procs[p]) ==> Asked(next.procs[p]))
  }

  lemma BuildEffect(s: Node, p: nat, w: World)
    requires p in s.procs && (s.procs[p].phase.Building? || s.procs[p].phase.Proving?)
    ensures MoveEffect(s, p, AfterMove(s, p, w))
  {
  }

  lemma ReleaseEffect(s: Node, p: nat, w: World)
    requires p in s.procs && (s.procs[p].phase.Caching? || s.procs[p].phase.Releasing?)
    ensures MoveEffect(s, p, AfterMove(s, p, w))
  {
    hide UpsertPcs;
  }

  lemma SendEffect(s: Node, p: nat, w: World)
    requires p in s.procs
    requires var phase := s.procs[p].phase; phase.Sending? || phase.Deleting? || phase.Refusing? || phase.RefusalDeleting?
    ensures MoveEffect(s, p, AfterMove(s, p, w))
  {
    hide DeletePcs;
  }

  lemma InsideEffect(s: Node, p: nat, w: World)
    requires p in s.procs && Inside(s.procs[p])
    ensures MoveEffect(s, p, AfterMove(s, p, w))
  {
    hide AfterMove, MoveEffect;
    var phase := s.procs[p].phase;
    if phase.Sending? || phase.Deleting? || phase.Refusing? || phase.RefusalDeleting? {
      SendEffect(s, p, w);
    } else if phase.Building? || phase.Proving? {
      BuildEffect(s, p, w);
    } else {
      ReleaseEffect(s, p, w);
    }
  }

  lemma ReadEffect(s: Node, p: nat, w: World)
    requires p in s.procs
    requires var phase := s.procs[p].phase;
      phase.RetainRead? || phase.RetainWrite? || phase.RequestRead? || phase.RequestWrite? || phase.OpenCheck? || phase.OpenWrite?
    ensures MoveEffect(s, p, AfterMove(s, p, w))
  {
    hide UpsertPcs;
  }

  lemma LoopEffect(s: Node, p: nat, w: World)
    requires p in s.procs
    requires var phase := s.procs[p].phase;
      phase.NextEntry? || phase.PruneEntry? || phase.Claiming? || phase.Noting? || phase.Finished?
    ensures MoveEffect(s, p, AfterMove(s, p, w))
  {
    hide DeletePcsById, CountPcsAttempt;
  }

  lemma EveryMoveEffect(s: Node, p: nat, w: World)
    requires p in s.procs
    ensures MoveEffect(s, p, AfterMove(s, p, w))
  {
    hide AfterMove, MoveEffect;
    if Inside(s.procs[p]) {
      InsideEffect(s, p, w);
    } else {
      var phase := s.procs[p].phase;
      if phase.NextEntry? || phase.PruneEntry? || phase.Claiming? || phase.Noting? || phase.Finished? {
        LoopEffect(s, p, w);
      } else {
        ReadEffect(s, p, w);
      }
    }
  }

  lemma MoveKeepsExclusive(s: Node, p: nat, next: Node)
    requires Exclusive(s) && MoveEffect(s, p, next)
    ensures Exclusive(next)
  {
    hide Inside, Asked;
    forall id | id in next.inFlight ensures exists q :: q in next.procs && Inside(next.procs[q]) && next.procs[q].id == id {
      if id in s.inFlight {
        var q :| q in s.procs && Inside(s.procs[q]) && s.procs[q].id == id;
        assert q in next.procs && Inside(next.procs[q]) && next.procs[q].id == id;
      } else {
        assert Inside(next.procs[p]) && next.procs[p].id == id;
      }
    }
  }

  lemma StepKeepsExclusive(s: Node, step: Step)
    requires Exclusive(s) && AllAsked(s) && Enabled(s, step)
    ensures Exclusive(Apply(s, step)) && AllAsked(Apply(s, step))
  {
    if step.Move? {
      EveryMoveEffect(s, step.p, step.w);
      hide AfterMove, Asked;
      MoveKeepsExclusive(s, step.p, AfterMove(s, step.p, step.w));
    } else {
      OtherStepKeepsExclusive(s, step);
    }
  }

  lemma NewProcKeepsExclusive(s: Node, p: nat, proc: Proc)
    requires Exclusive(s) && AllAsked(s) && p !in s.procs && !Inside(proc) && Asked(proc)
    ensures Exclusive(SetProc(s, p, proc)) && AllAsked(SetProc(s, p, proc))
  {
    hide Inside, Asked;
    var next := SetProc(s, p, proc);
    forall id | id in next.inFlight ensures exists q :: q in next.procs && Inside(next.procs[q]) && next.procs[q].id == id {
      var q :| q in s.procs && Inside(s.procs[q]) && s.procs[q].id == id;
      assert q in next.procs && next.procs[q] == s.procs[q];
    }
  }

  lemma AnnounceKeepsExclusive(s: Node, openCalls: map<string, string>)
    requires Exclusive(s) && AllAsked(s)
    ensures Exclusive(s.(openCalls := openCalls)) && AllAsked(s.(openCalls := openCalls))
  {
    hide Inside, Asked;
  }

  lemma OtherStepKeepsExclusive(s: Node, step: Step)
    requires Exclusive(s) && AllAsked(s) && Enabled(s, step) && !step.Move?
    ensures Exclusive(Apply(s, step)) && AllAsked(Apply(s, step))
  {
    if step.Announce? {
      AnnounceKeepsExclusive(s, Apply(s, step).openCalls);
    } else if !step.Crash? {
      hide Exclusive, AllAsked, Lists;
      NewProcKeepsExclusive(s, step.p, Apply(s, step).procs[step.p]);
    }
  }

  /**
   Under every interleaving, with crashes and failing calls: at most one process
   per sub-task is between claim and release, the in-flight set is exactly the
   ids of those processes, and each works on a job marked as requested.
   */
  lemma {:induction false} MutualExclusion(s: Node, steps: seq<Step>)
    requires Exclusive(s) && AllAsked(s) && Run(s, steps)
    ensures Exclusive(RunTo(s, steps)) && AllAsked(RunTo(s, steps))
    decreases |steps|
  {
    hide Exclusive, AllAsked, Enabled, Apply;
    if steps != [] {
      StepKeepsExclusive(s, steps[0]);
      MutualExclusion(Apply(s, steps[0]), steps[1..]);
    }
  }

  lemma InitiallyExclusive()
    ensures Exclusive(INITIAL) && AllAsked(INITIAL)
  {
  }

  lemma MutualExclusionFromStart(steps: seq<Step>)
    requires Run(INITIAL, steps)
    ensures Exclusive(RunTo(INITIAL, steps)) && AllAsked(RunTo(INITIAL, steps))
  {
    InitiallyExclusive();
    MutualExclusion(INITIAL, steps);
  }

  /** An id leaves the in-flight set only when its own process releases it, or in a crash. */
  lemma OnlyTheClaimantReleases(s: Node, step: Step, id: string)
    requires Exclusive(s) && Enabled(s, step) && id in s.inFlight && id !in Apply(s, step).inFlight
    ensures step.Crash? || (step.Move? && s.procs[step.p].phase.Releasing? && s.procs[step.p].id == id)
  {
    if step.Move? {
      EveryMoveEffect(s, step.p, step.w);
      hide AfterMove, Inside, Asked;
    }
  }

  /** How many own steps a process inside still needs to get out. */
  function Remaining(proc: Proc): nat {
    match proc.phase
    case Building => 6
    case Proving => 5
    case Caching => 4
    case Sending => 3
    case Refusing => 3
    case Deleting => 2
    case RefusalDeleting => 2
    case Releasing(_) => 1
    case _ => 0
  }

  /**
   Every exit releases: whatever its storage, core and send calls answer, each
   own step brings a process inside closer to the release, and it never gets
   out without one.
   */
  lemma EveryExitReleases(s: Node, p: nat, w: World)
    requires p in s.procs && Inside(s.procs[p])
    ensures Remaining(AfterMove(s, p, w).procs[p]) < Remaining(s.procs[p])
    ensures Inside(AfterMove(s, p, w).procs[p]) || (s.procs[p].phase.Releasing? && s.procs[p].id !in AfterMove(s, p, w).inFlight)
  {
    InsideEffect(s, p, w);
    InsideGetsCloser(s, p, w);
    hide AfterMove;
  }

  lemma InsideGetsCloser(s: Node, p: nat, w: World)
    requires p in s.procs && Inside(s.procs[p])
    ensures p in AfterMove(s, p, w).procs && Remaining(AfterMove(s, p, w).procs[p]) < Remaining(s.procs[p])
  {
    hide UpsertPcs, DeletePcs;
  }
}

/**
 What one undisturbed call on the PCS outbox leaves behind, whatever its own
 storage, core and send calls answer (src/application/pcs_outbox.rs).
 */
module PcsCalls {
  import opened Wrappers
  import opened Storage
  import opened PcsOutbox

  function Repeat(step: Step, k: nat): (steps: seq<Step>)
    ensures |steps| == k
  {
    if k == 0 then [] else [step] + Repeat(step, k - 1)
  }

  /** `k` own moves with the same answers are possible and lead to `end`. */
  ghost predicate Leads(s: Node, p: nat, w: World, k: nat, end: Node) {
    Run(s, Repeat(Move(p, w), k)) && RunTo(s, Repeat(Move(p, w), k)) == end
  }

  lemma Stays(s: Node, p: nat, w: World)
    ensures Leads(s, p, w, 0, s)
  {
  }

  lemma OneMore(s: Node, p: nat, w: World, k: nat, end: Node)
    requires p in s.procs && !s.procs[p].phase.Finished? && Leads(AfterMove(s, p, w), p, w, k, end)
    ensures Leads(s, p, w, k + 1, end)
  {
    var step := Move(p, w);
    assert Enabled(s, step) && Apply(s, step) == AfterMove(s, p, w);
    hide Enabled, Apply, AfterMove;
    assert Repeat(step, k + 1)[0] == step && Repeat(step, k + 1)[1..] == Repeat(step, k);
  }

  /** Only the process itself is elsewhere. */
  ghost predicate OnlyProc(s: Node, p: nat, end: Node) {
    p in end.procs && end == s.(procs := s.procs[p := end.procs[p]])
  }

  // ---------------------------------------------------------------------
  // The three ways in
  // ---------------------------------------------------------------------

  /**
   A retain keeps what the row had, bundle, request and open call; if it cannot
   read the row, it stores a bare proof. It goes on to build what is requested.
   */
  lemma RetainAlone(s: Node, p: nat, id: string, proof: string, read: World, write: World)
    requires p !in s.procs
    ensures var start := Apply(s, StartRetain(p, id, proof));
            var end := AfterMove(AfterMove(start, p, read), p, write);
            var job := if read.storageOk && id in s.table.rows then s.table.rows[id].job.(proof := proof) else Job(proof, false, None, None);
      && OnlyProc(s.(table := if write.storageOk then UpsertPcs(s.table, id, job, write.now) else s.table), p, end)
      && end.procs[p].id == id && end.procs[p].job == job && !end.procs[p].looping
      && end.procs[p].phase == (if write.storageOk && job.requested then Claiming else Finished)
  {
    hide UpsertPcs;
  }

  /** A request that finds the row marks it and goes on to build; an earlier mark is not written again. */
  lemma RequestAlone(s: Node, p: nat, id: string, read: World, write: World)
    requires p !in s.procs && id in s.table.rows
    ensures var start := Apply(s, StartRequest(p, id));
            var row := s.table.rows[id];
            var found := AfterMove(start, p, read);
            var end := AfterMove(found, p, write);
            var job := row.job.(requested := true);
      && (!read.storageOk ==> OnlyProc(s, p, found) && found.procs[p].phase == Finished)
      && (read.storageOk && row.job.requested ==>
            OnlyProc(s, p, found) && found.procs[p] == Proc(id, Claiming, row.job, Some(row), false, [], NO_ROUND))
      && (read.storageOk && !row.job.requested ==>
            && OnlyProc(s.(table := if write.storageOk then UpsertPcs(s.table, id, job, write.now) else s.table), p, end)
            && end.procs[p] == Proc(id, if write.storageOk then Claiming else Finished, job, Some(row), false, [], NO_ROUND))
  {
    hide UpsertPcs;
    assert s.table.rows[id].job.requested ==> s.table.rows[id].job.(requested := true) == s.table.rows[id].job;
  }

  lemma {:induction false} LooksInVain(s: Node, p: nat, w: World, left: nat) returns (end: Node)
    requires p in s.procs && s.procs[p].phase == RequestRead(left) && left >= 1 && s.procs[p].id !in s.table.rows && w.storageOk
    ensures Leads(s, p, w, left, end) && OnlyProc(s, p, end) && end.procs[p].phase == Finished
    decreases left
  {
    var next := AfterMove(s, p, w);
    if left == 1 {
      end := next;
      Stays(end, p, w);
      hide Leads;
      OneMore(s, p, w, 0, end);
    } else {
      assert next == s.(procs := s.procs[p := s.procs[p].(phase := RequestRead(left - 1))]);
      hide Leads, AfterMove;
      end := LooksInVain(next, p, w, left - 1);
      OneMore(s, p, w, left - 1, end);
    }
  }

  /** A request that never finds a row looks ten times and gives up. */
  lemma RequestGivesUpAfterTenLooks(s: Node, p: nat, id: string, w: World) returns (end: Node)
    requires p !in s.procs && id !in s.table.rows && w.storageOk
    ensures Leads(Apply(s, StartRequest(p, id)), p, w, 10, end) && OnlyProc(s, p, end) && end.procs[p].phase == Finished
  {
    hide Leads;
    end := LooksInVain(Apply(s, StartRequest(p, id)), p, w, 10);
  }

  /** An open call is stored and built only for the announced proof, which must be named. */
  lemma OpenCallAlone(s: Node, p: nat, id: string, hash: string, check: World, write: World)
    requires p !in s.procs
    ensures var start := Apply(s, StartOpenCall(p, id, hash));
            var checked := AfterMove(start, p, check);
            var end := AfterMove(checked, p, write);
            var job := Job("", true, None, Some(hash));
      if hash != "" && id in s.openCalls && s.openCalls[id] == hash then
        && OnlyProc(s.(table := if write.storageOk then UpsertPcs(s.table, id, job, write.now) else s.table), p, end)
        && end.procs[p] == Proc(id, if write.storageOk then Claiming else Finished, job, None, false, [], NO_ROUND)
      else
        OnlyProc(s, p, checked) && checked.procs[p].phase == Finished
  {
    hide UpsertPcs;
  }

  // ---------------------------------------------------------------------
  // From the claim to the release
  // ---------------------------------------------------------------------

  /** The bundle that is there to be sent: the cached one, or one that is built and cached now. */
  function BundleToSend(job: Job, build: World): Option<string> {
    if job.bundle.Some? then job.bundle
    else if !build.backoff && build.proved.Built? && build.storageOk then Some(build.proved.bundle)
    else None
  }

  /** Core can never build it: the orchestrator is told so. */
  predicate Refuses(job: Job, build: World) {
    && job.bundle.None? && !build.backoff
    && (build.proved.MemoryRefusal? || (build.proved.HashMismatch? && job.openCall.Some?))
  }

  /** Core is down: the job waits, and this is no failed attempt. */
  predicate Defers(job: Job, build: World) {
    job.bundle.None? && (build.backoff || build.proved.CoreDown?)
  }

  /** Up to the send, or to the release if there is nothing to send. */
  ghost predicate Prepared(s: Node, p: nat, build: World, end: Node)
    requires p in s.procs
  {
    var id, job := s.procs[p].id, s.procs[p].job;
    var bundle := BundleToSend(job, build);
    && p in end.procs && end.procs[p].id == id && end.procs[p].job.openCall == job.openCall
    && end.procs == s.procs[p := end.procs[p]]
    && end.inFlight == s.inFlight + {id} && end.openCalls == s.openCalls && end.acked == s.acked
    && end.table == (if job.bundle.None? && bundle.Some? then UpsertPcs(s.table, id, job.(bundle := bundle), build.now) else s.table)
    && end.procs[p].phase == (if bundle.Some? then Phase.Sending else if Refuses(job, build) then Refusing else Releasing(!Defers(job, build)))
  }

  lemma ClaimAlone(s: Node, p: nat, w: World)
    requires p in s.procs && s.procs[p].phase.Claiming? && s.procs[p].id !in s.inFlight
    ensures AfterMove(s, p, w) == s.(procs := s.procs[p := s.procs[p].(phase := Building)], inFlight := s.inFlight + {s.procs[p].id})
  {
  }

  lemma BuildAlone(s: Node, p: nat, build: World)
    requires p in s.procs && s.procs[p].phase.Building?
    ensures var job := s.procs[p].job;
      AfterMove(s, p, build) == s.(procs := s.procs[p := s.procs[p].(
        phase := if job.bundle.Some? then Phase.Sending else if build.backoff then Releasing(false) else Proving)])
  {
  }

  /** Core's answer, and the cache write if it has built something. */
  lemma ProveAlone(s: Node, p: nat, build: World) returns (k: nat, end: Node)
    requires p in s.procs && s.procs[p].phase.Proving?
    ensures Leads(s, p, build, k, end)
    ensures var proc := s.procs[p];
            var built := build.proved.Built?;
            var bundle := if built && build.storageOk then Some(build.proved.bundle) else None;
      && p in end.procs && end.procs[p].id == proc.id && end.procs[p].job.openCall == proc.job.openCall
      && end == s.(procs := s.procs[p := end.procs[p]],
                   table := if bundle.Some? then UpsertPcs(s.table, proc.id, proc.job.(bundle := bundle), build.now) else s.table)
      && end.procs[p].phase == (
           if bundle.Some? then Phase.Sending
           else if build.proved.MemoryRefusal? || (build.proved.HashMismatch? && proc.job.openCall.Some?) then Refusing
           else Releasing(!build.proved.CoreDown?))
  {
    hide UpsertPcs, Leads;
    var proved := AfterMove(s, p, build);
    if build.proved.Built? {
      end, k := AfterMove(proved, p, build), 2;
      Stays(end, p, build);
      OneMore(proved, p, build, 0, end);
      OneMore(s, p, build, 1, end);
    } else {
      end, k := proved, 1;
      Stays(end, p, build);
      OneMore(s, p, build, 0, end);
    }
  }

  /** A claim that is free, a build and its cache write. */
  lemma PrepareAlone(s: Node, p: nat, build: World) returns (k: nat, end: Node)
    requires p in s.procs && s.procs[p].phase.Claiming? && s.procs[p].id !in s.inFlight
    ensures Leads(s, p, build, k, end) && Prepared(s, p, build, end)
  {
    hide UpsertPcs, Leads, AfterMove;
    var claimed := AfterMove(s, p, build);
    ClaimAlone(s, p, build);
    var started := AfterMove(claimed, p, build);
    BuildAlone(claimed, p, build);
    if started.procs[p].phase.Proving? {
      k, end := ProveAlone(started, p, build);
    } else {
      end, k := started, 0;
      Stays(end, p, build);
    }
    OneMore(claimed, p, build, k, end);
    OneMore(s, p, build, k + 1, end);
    k := k + 2;
  }

  /**
   Whatever is sent, a bundle or a refusal: with an acknowledgement and a delete
   the row is gone, and so is the announced open call after a refusal or for an
   open-call job; without either the row stays and the attempt has failed.
   */
  lemma SendAlone(s: Node, p: nat, w: World) returns (k: nat, end: Node)
    requires p in s.procs && (s.procs[p].phase.Sending? || s.procs[p].phase.Refusing?)
    ensures Leads(s, p, w, k, end)
    ensures var proc := s.procs[p];
            var gone := w.sendOk && w.storageOk;
      && p in end.procs && end.procs[p] == proc.(phase := Releasing(!gone))
      && end == Node(
           if gone then s.table.(rows := s.table.rows - {proc.id}) else s.table,
           s.inFlight,
           if gone && (proc.phase.Refusing? || proc.job.openCall.Some?) then s.openCalls - {proc.id} else s.openCalls,
           s.procs[p := end.procs[p]],
           if w.sendOk then s.acked + multiset{proc.id} else s.acked)
  {
    hide Leads;
    var sent := AfterMove(s, p, w);
    if w.sendOk {
      end, k := AfterMove(sent, p, w), 2;
      Stays(end, p, w);
      OneMore(sent, p, w, 0, end);
      OneMore(s, p, w, 1, end);
    } else {
      end, k := sent, 1;
      Stays(end, p, w);
      OneMore(s, p, w, 0, end);
    }
  }

  /** Where a process goes after a job: the retry loop to its next entry, the others out. */
  ghost predicate LeftJob(before: Proc, after: Proc) {
    if before.looping && before.entries != []
    then after == before.(phase := NextEntry, entries := before.entries[1..])
    else after == before.(phase := Finished)
  }

  /** The release frees the id; only the retry loop counts a failed attempt, on the listed row. */
  lemma ReleaseAlone(s: Node, p: nat, failed: bool, w: World)
    requires p in s.procs && s.procs[p].phase == Releasing(failed)
    ensures var proc, next := s.procs[p], AfterMove(s, p, w);
            var freed := s.(inFlight := s.inFlight - {proc.id});
      && OnlyProc(freed, p, next)
      && (proc.looping && failed ==> next.procs[p] == proc.(phase := Noting))
      && (!proc.looping || !failed ==> LeftJob(proc, next.procs[p]))
      && (proc.looping && failed ==>
            var noted := AfterMove(next, p, w);
            && OnlyProc(freed.(table := if w.storageOk && proc.entries != [] then CountPcsAttempt(s.table, proc.entries[0].row.rowId) else s.table), p, noted)
            && LeftJob(next.procs[p], noted.procs[p]))
  {
    hide CountPcsAttempt;
  }

  /** A process that finds its id claimed leaves everything as it is. */
  lemma ClaimedElsewhere(s: Node, p: nat, w: World)
    requires p in s.procs && s.procs[p].phase.Claiming? && s.procs[p].id in s.inFlight
    ensures OnlyProc(s, p, AfterMove(s, p, w)) && LeftJob(s.procs[p], AfterMove(s, p, w).procs[p])
  {
  }

  /** There always is a list of the rows for a round to work on. */
  lemma {:induction false} EveryTableIsListed(rows: map<string, PcsRow>) returns (entries: seq<Entry>)
    ensures Lists(entries, rows) && |entries| == |rows|
    decreases |rows|
  {
    hide Lists;
    if rows == map[] {
      entries := [];
      NothingIsListed();
    } else {
      var id :| id in rows;
      var fewer := rows - {id};
      assert fewer.Keys == rows.Keys - {id};
      var others := EveryTableIsListed(fewer);
      entries := [Entry(id, rows[id])] + others;
      OneMoreListed(rows, id, others);
    }
  }

  lemma NothingIsListed()
    ensures Lists([], map[])
  {
  }

  lemma OneMoreListed(rows: map<string, PcsRow>, id: string, others: seq<Entry>)
    requires id in rows && Lists(others, rows - {id})
    ensures Lists([Entry(id, rows[id])] + others, rows)
  {
    var entries := [Entry(id, rows[id])] + others;
    assert forall entry :: entry in others ==> entry in entries;
    forall key | key in rows ensures Entry(key, rows[key]) in entries {
      if key != id {
        assert key in rows - {id} && Entry(key, rows[key]) in others;
      }
    }
    forall i | 0 < i < |entries| ensures entries[i] == others[i - 1] && entries[i].id != id && rows[entries[i].id] == entries[i].row {
    }
  }

  /** A crash can come at any time: the rows stay, and everything in memory is gone. */
  lemma CrashKeepsTheRows(s: Node)
    ensures Enabled(s, Crash) && Apply(s, Crash).table == s.table
    ensures Apply(s, Crash).inFlight == {} && Apply(s, Crash).openCalls == map[] && Apply(s, Crash).procs == map[]
  {
  }
}

/**
 The ledger driving the single FIFO worker (src/domain/work.rs,
 src/application/worker.rs): a sub-task admitted by `decide` is started in time.
 */
module Schedule {
  import opened Wrappers
  import opened MapSums
  import opened Ledger

  /** An accepted sub-task as it travels through the channel. */
  datatype Job = Job(id: string, budget: Option<Budget>, acceptedAt: real)

  datatype Node = Node(now: real, ledger: State, queue: seq<Job>, running: Option<Job>)

  datatype Step =
    | Tick(dt: real)
    | Announce(taskId: string, work: Work, deadlineSecs: nat)
    | Accept(job: Job, parent: Option<string>)
    | Begin
    | Finish

  /** What a job counts for: its estimate, or the unknown share. */
  function Share(job: Job, cfg: Policy): real {
    match job.budget
    case None => cfg.unknownSecs
    case Some(b) => b.expectedSecs
  }

  function RunFor(n: Node): real
    requires n.running.Some?
  {
    if n.running.value.id in n.ledger.held && n.ledger.held[n.running.value.id].started.Some?
    then n.now - n.ledger.held[n.running.value.id].started.value
    else 0.0
  }

  /**
   The timing premises: the worker takes the next job without a pause, and no
   job runs past its share. A sub-task id is accepted once.
   */
  predicate Enabled(n: Node, step: Step, cfg: Policy) {
    match step
    case Tick(dt) =>
      && dt >= 0.0
      && (n.running.None? ==> n.queue == [])
      && (n.running.Some? ==> RunFor(n) + dt <= Share(n.running.value, cfg))
    case Announce(_, _, _) => true
    case Accept(job, _) => job.id !in n.ledger.held && job.acceptedAt <= n.now && Share(job, cfg) >= 0.0
    case Begin => n.running.None? && n.queue != []
    case Finish => n.running.Some?
  }

  ghost function Apply(n: Node, step: Step, cfg: Policy): Node
    requires Enabled(n, step, cfg)
  {
    match step
    case Tick(dt) => n.(now := n.now + dt)
    case Announce(taskId, work, deadlineSecs) =>
      n.(ledger := AfterDecide(n.ledger, taskId, work, deadlineSecs, cfg, n.now))
    case Accept(job, parent) =>
      n.(ledger := AfterHold(n.ledger, job.id, parent, job.budget), queue := n.queue + [job])
    case Begin =>
      n.(ledger := AfterStart(n.ledger, n.queue[0].id, n.now), queue := n.queue[1..], running := Some(n.queue[0]))
    case Finish =>
      n.(ledger := AfterRelease(n.ledger, n.running.value.id), running := None)
  }

  /** `waited` as the worker measures it: two clock readings cut to milliseconds. */
  function MeasuredWait(now: real, acceptedAt: real): real {
    var accepted := (acceptedAt * 1000.0).Floor;
    var current := (now * 1000.0).Floor;
    if accepted == 0 || current <= accepted then 0.0 else (current - accepted) as real / 1000.0
  }

  lemma MeasuredWaitWithinAMillisecond(now: real, acceptedAt: real)
    requires acceptedAt <= now
    ensures 0.0 <= MeasuredWait(now, acceptedAt) < now - acceptedAt + 0.001
  {
  }

  // ---------------------------------------------------------------------
  // The held sub-tasks are exactly the queue and the running job
  // ---------------------------------------------------------------------

  ghost predicate Distinct(queue: seq<Job>) {
    forall i, j :: 0 <= i < j < |queue| ==> queue[i].id != queue[j].id
  }

  ghost function Ids(queue: seq<Job>): set<string> {
    set i | 0 <= i < |queue| :: queue[i].id
  }

  ghost predicate RunningEntry(n: Node, cfg: Policy) {
    n.running.Some? ==>
      var job := n.running.value;
      && job.id !in Ids(n.queue)
      && job.id in n.ledger.held
      && n.ledger.held[job.id].expected == ExpectedOf(job.budget)
      && n.ledger.held[job.id].started.Some?
      && 0.0 <= RunFor(n) <= Share(job, cfg)
  }

  /** What the configuration guarantees: a margin in (0, 1] and no negative seconds. */
  predicate GoodPolicy(cfg: Policy) {
    && 0.0 < cfg.margin <= 1.0
    && cfg.unknownSecs >= 0.0 && cfg.overheadSecs >= 0.0
    && cfg.rates.secondsPerByte >= 0.0 && cfg.rates.secondsPerFlop >= 0.0
  }

  ghost predicate Valid(n: Node, cfg: Policy) {
    && (forall p :: p in n.ledger.reserved ==> n.ledger.reserved[p].expected >= 0.0)
    && Distinct(n.queue)
    && RunningEntry(n, cfg)
    && n.ledger.held.Keys == Ids(n.queue) + (if n.running.Some? then {n.running.value.id} else {})
    && WaitingEntries(n.queue, n.ledger.held, cfg)
  }

  lemma IdsAppend(queue: seq<Job>, job: Job)
    ensures Ids(queue + [job]) == Ids(queue) + {job.id}
  {
    var longer := queue + [job];
    assert longer[|queue|] == job;
    forall id | id in Ids(queue) ensures id in Ids(longer) {
      var i :| 0 <= i < |queue| && queue[i].id == id;
      assert longer[i].id == id;
    }
  }

  lemma IdsTail(queue: seq<Job>)
    requires queue != [] && Distinct(queue)
    ensures Distinct(queue[1..]) && queue[0].id !in Ids(queue[1..])
    ensures Ids(queue) == {queue[0].id} + Ids(queue[1..])
  {
    var rest := queue[1..];
    assert forall i :: 0 <= i < |rest| ==> rest[i] == queue[i + 1];
    forall id | id in Ids(queue) ensures id in {queue[0].id} + Ids(rest) {
      var i :| 0 <= i < |queue| && queue[i].id == id;
      if i > 0 {
        assert rest[i - 1].id == id;
      }
    }
  }

  /** Waiting jobs are held, unstarted, with their own estimate. */
  ghost predicate WaitingEntries(queue: seq<Job>, held: map<string, Held>, cfg: Policy) {
    forall i :: 0 <= i < |queue| ==>
      && Share(queue[i], cfg) >= 0.0
      && queue[i].id in held
      && held[queue[i].id] == Held(ExpectedOf(queue[i].budget), None)
  }

  lemma WaitingEntriesAppend(queue: seq<Job>, held: map<string, Held>, job: Job, cfg: Policy)
    requires WaitingEntries(queue, held, cfg) && Distinct(queue)
    requires job.id !in held && Share(job, cfg) >= 0.0
    ensures WaitingEntries(queue + [job], held[job.id := Held(ExpectedOf(job.budget), None)], cfg)
    ensures Distinct(queue + [job])
  {
    assert forall i :: 0 <= i < |queue| ==> (queue + [job])[i] == queue[i];
  }

  lemma AcceptKeepsValid(n: Node, job: Job, parent: Option<string>, cfg: Policy)
    requires Valid(n, cfg) && Enabled(n, Accept(job, parent), cfg)
    ensures Valid(Apply(n, Accept(job, parent), cfg), cfg)
  {
    IdsAppend(n.queue, job);
    WaitingEntriesAppend(n.queue, n.ledger.held, job, cfg);
    hide WaitingEntries, Distinct, Ids, Share;
  }

  lemma BeginKeepsValid(n: Node, cfg: Policy)
    requires Valid(n, cfg) && Enabled(n, Begin, cfg)
    ensures Valid(Apply(n, Begin, cfg), cfg)
  {
    var after := Apply(n, Begin, cfg);
    IdsTail(n.queue);
    assert forall i :: 0 <= i < |after.queue| ==> after.queue[i] == n.queue[i + 1] && after.queue[i].id in Ids(after.queue);
  }

  /** Every node state a run can reach is valid. */
  lemma ApplyKeepsValid(n: Node, step: Step, cfg: Policy)
    requires GoodPolicy(cfg) && Valid(n, cfg) && Enabled(n, step, cfg)
    ensures Valid(Apply(n, step, cfg), cfg)
  {
    match step
    case Accept(job, parent) => AcceptKeepsValid(n, job, parent, cfg);
    case Begin => BeginKeepsValid(n, cfg);
    case Announce(_, work, _) => OwnSecsNonNegative(work, cfg);
    case Finish => assert forall i :: 0 <= i < |n.queue| ==> n.queue[i].id in Ids(n.queue);
    case _ =>
  }

  // ---------------------------------------------------------------------
  // Backlog: the time the worker still needs for what it holds
  // ---------------------------------------------------------------------

  function Shares(queue: seq<Job>, cfg: Policy): real {
    if queue == [] then 0.0 else Share(queue[0], cfg) + Shares(queue[1..], cfg)
  }

  function Remaining(n: Node, cfg: Policy): real {
    if n.running.Some? then Share(n.running.value, cfg) - RunFor(n) else 0.0
  }

  function Backlog(n: Node, cfg: Policy): real {
    Remaining(n, cfg) + Shares(n.queue, cfg)
  }

  lemma {:induction false} SharesAppend(queue: seq<Job>, job: Job, cfg: Policy)
    ensures Shares(queue + [job], cfg) == Shares(queue, cfg) + Share(job, cfg)
    decreases |queue|
  {
    if queue == [] {
      assert queue + [job] == [job];
    } else {
      assert (queue + [job])[1..] == queue[1..] + [job];
      SharesAppend(queue[1..], job, cfg);
    }
  }

  /** Held shares of waiting jobs add up to the shares of the queue. */
  lemma {:induction false} TotalOfQueue(shares: map<string, real>, queue: seq<Job>, cfg: Policy)
    requires Distinct(queue) && shares.Keys == Ids(queue)
    requires forall i :: 0 <= i < |queue| ==> shares[queue[i].id] == Share(queue[i], cfg)
    ensures Total(shares) == Shares(queue, cfg)
    decreases |queue|
  {
    if queue == [] {
      assert shares == map[];
    } else {
      var id := queue[0].id;
      assert id in shares;
      TotalRemove(shares, id);
      IdsTail(queue);
      assert (shares - {id}).Keys == Ids(queue[1..]);
      TotalOfQueue(shares - {id}, queue[1..], cfg);
    }
  }

  /** The ledger never counts less than the worker still has to do. */
  lemma BacklogWithinHeld(n: Node, cfg: Policy)
    requires Valid(n, cfg)
    ensures Backlog(n, cfg) <= HeldSecs(n.ledger.held, n.now, cfg.unknownSecs)
  {
    var shares := HeldShares(n.ledger.held, n.now, cfg.unknownSecs);
    assert forall i :: 0 <= i < |n.queue| ==> shares[n.queue[i].id] == Share(n.queue[i], cfg);
    if n.running.Some? {
      var id := n.running.value.id;
      TotalRemove(shares, id);
      assert (shares - {id}).Keys == Ids(n.queue);
      TotalOfQueue(shares - {id}, n.queue, cfg);
      assert shares[id] >= Remaining(n, cfg);
    } else {
      TotalOfQueue(shares, n.queue, cfg);
    }
  }

  // ---------------------------------------------------------------------
  // From the decision to the dispatch
  // ---------------------------------------------------------------------

  /**
   A run in which every accepted job was counted: its parent held a live
   reservation at the decision, of at least this share, not used before.
   */
  ghost predicate CountedRun(n: Node, steps: seq<Step>, credits: map<string, real>, cfg: Policy)
    decreases |steps|
  {
    steps == [] || (
      && Enabled(n, steps[0], cfg)
      && (steps[0].Accept? ==>
            && steps[0].parent.Some?
            && steps[0].parent.value in credits
            && Share(steps[0].job, cfg) <= credits[steps[0].parent.value])
      && CountedRun(Apply(n, steps[0], cfg), steps[1..], Spend(steps[0], credits), cfg))
  }

  function Spend(step: Step, credits: map<string, real>): map<string, real> {
    if step.Accept? && step.parent.Some? then credits - {step.parent.value} else credits
  }

  ghost predicate Run(n: Node, steps: seq<Step>, cfg: Policy)
    decreases |steps|
  {
    steps == [] || (Enabled(n, steps[0], cfg) && Run(Apply(n, steps[0], cfg), steps[1..], cfg))
  }

  ghost function RunTo(n: Node, steps: seq<Step>, cfg: Policy): Node
    requires Run(n, steps, cfg)
    decreases |steps|
  {
    if steps == [] then n else RunTo(Apply(n, steps[0], cfg), steps[1..], cfg)
  }

  lemma {:induction false} CountedRunIsRun(n: Node, steps: seq<Step>, credits: map<string, real>, cfg: Policy)
    requires CountedRun(n, steps, credits, cfg)
    ensures Run(n, steps, cfg)
    decreases |steps|
  {
    if steps != [] {
      CountedRunIsRun(Apply(n, steps[0], cfg), steps[1..], Spend(steps[0], credits), cfg);
    }
  }

  lemma BacklogStep(n: Node, step: Step, cfg: Policy)
    requires GoodPolicy(cfg) && Valid(n, cfg) && Enabled(n, step, cfg)
    ensures step.Accept? ==> Backlog(Apply(n, step, cfg), cfg) == Backlog(n, cfg) + Share(step.job, cfg)
    ensures !step.Accept? ==> Backlog(Apply(n, step, cfg), cfg) <= Backlog(n, cfg)
  {
    ApplyKeepsValid(n, step, cfg);
    if step.Accept? {
      SharesAppend(n.queue, step.job, cfg);
    }
  }

  /** Backlog plus unused credits never grows over a counted run. */
  lemma {:induction false} CountedBacklog(n: Node, steps: seq<Step>, credits: map<string, real>, cfg: Policy)
    requires GoodPolicy(cfg) && Valid(n, cfg) && CountedRun(n, steps, credits, cfg)
    requires forall k :: k in credits ==> credits[k] >= 0.0
    ensures Run(n, steps, cfg)
    ensures Valid(RunTo(n, steps, cfg), cfg)
    ensures Backlog(RunTo(n, steps, cfg), cfg) <= Backlog(n, cfg) + Total(credits)
    decreases |steps|
  {
    CountedRunIsRun(n, steps, credits, cfg);
    if steps == [] {
      TotalNonNegative(credits);
    } else {
      var step := steps[0];
      ApplyKeepsValid(n, step, cfg);
      BacklogStep(n, step, cfg);
      if step.Accept? {
        TotalRemove(credits, step.parent.value);
      }
      CountedBacklog(Apply(n, step, cfg), steps[1..], Spend(step, credits), cfg);
    }
  }

  /** Without a new announcement of `parent`, its budget is kept or dropped, never changed. */
  lemma {:induction false} BudgetUnchanged(n: Node, steps: seq<Step>, parent: string, cfg: Policy)
    requires Run(n, steps, cfg)
    requires forall i :: 0 <= i < |steps| && steps[i].Announce? ==> steps[i].taskId != parent
    ensures BudgetOf(RunTo(n, steps, cfg).ledger, parent) in {None, BudgetOf(n.ledger, parent)}
    decreases |steps|
  {
    if steps != [] {
      BudgetUnchanged(Apply(n, steps[0], cfg), steps[1..], parent, cfg);
    }
  }

  // ---------------------------------------------------------------------
  // From the dispatch to the start
  // ---------------------------------------------------------------------

  /** The time until job number `place` of the queue can start. */
  function Ahead(n: Node, place: nat, cfg: Policy): real
    requires place <= |n.queue|
  {
    Remaining(n, cfg) + Shares(n.queue[..place], cfg)
  }

  /** How far forward in the queue a step moves a waiting job. */
  function PlaceAfter(step: Step, place: nat): nat
    requires step.Begin? ==> place > 0
  {
    if step.Begin? then place - 1 else place
  }

  /** A run during which the job at `place` keeps waiting. */
  ghost predicate WaitingRun(n: Node, steps: seq<Step>, place: nat, cfg: Policy)
    decreases |steps|
  {
    steps == [] || (
      && Enabled(n, steps[0], cfg)
      && (steps[0].Begin? ==> place > 0)
      && WaitingRun(Apply(n, steps[0], cfg), steps[1..], PlaceAfter(steps[0], place), cfg))
  }

  lemma WaitingStep(n: Node, step: Step, place: nat, cfg: Policy)
    requires GoodPolicy(cfg) && Valid(n, cfg) && Enabled(n, step, cfg) && place < |n.queue|
    requires step.Begin? ==> place > 0
    ensures var after, place' := Apply(n, step, cfg), PlaceAfter(step, place);
            && place' < |after.queue|
            && after.queue[place'] == n.queue[place]
            && after.now + Ahead(after, place', cfg) <= n.now + Ahead(n, place, cfg)
  {
    var after, place' := Apply(n, step, cfg), PlaceAfter(step, place);
    ApplyKeepsValid(n, step, cfg);
    match step
    case Accept(job, _) =>
      assert after.queue[..place] == n.queue[..place];
    case Begin =>
      assert after.queue[..place'] == n.queue[..place][1..];
    case _ =>
  }

  lemma {:induction false} WaitingBound(n: Node, steps: seq<Step>, place: nat, cfg: Policy) returns (place': nat)
    requires GoodPolicy(cfg) && Valid(n, cfg) && place < |n.queue| && WaitingRun(n, steps, place, cfg)
    ensures Run(n, steps, cfg)
    ensures Valid(RunTo(n, steps, cfg), cfg)
    ensures place' < |RunTo(n, steps, cfg).queue|
    ensures RunTo(n, steps, cfg).queue[place'] == n.queue[place]
    ensures RunTo(n, steps, cfg).now + Ahead(RunTo(n, steps, cfg), place', cfg) <= n.now + Ahead(n, place, cfg)
    decreases |steps|
  {
    if steps == [] {
      place' := place;
    } else {
      WaitingStep(n, steps[0], place, cfg);
      ApplyKeepsValid(n, steps[0], cfg);
      place' := WaitingBound(Apply(n, steps[0], cfg), steps[1..], PlaceAfter(steps[0], place), cfg);
    }
  }

  // ---------------------------------------------------------------------
  // Schedulability
  // ---------------------------------------------------------------------

  /**
   One admitted sub-task: the decision at `n`, a counted run up to the dispatch,
   the dispatch of `job`, and a run until the worker is about to take it.
   */
  datatype Story = Story(
    n: Node, parent: string, work: Work, deadlineSecs: nat,
    before: seq<Step>, dispatch: Node, job: Job,
    waiting: seq<Step>, taken: Node)

  ghost function Decided(s: Story, cfg: Policy): Node {
    s.n.(ledger := AfterDecide(s.n.ledger, s.parent, s.work, s.deadlineSecs, cfg, s.n.now))
  }

  ghost predicate Admitted(s: Story, cfg: Policy) {
    && Valid(s.n, cfg)
    && DecisionOf(s.n.ledger, s.work, s.deadlineSecs, cfg, s.n.now).Ok?
  }

  ghost predicate Dispatched(s: Story, cfg: Policy) {
    && CountedRun(Decided(s, cfg), s.before, Estimates(Live(s.n.ledger.reserved, s.n.now)), cfg)
    && (forall i :: 0 <= i < |s.before| && s.before[i].Announce? ==> s.before[i].taskId != s.parent)
    && Run(Decided(s, cfg), s.before, cfg)
    && s.dispatch == RunTo(Decided(s, cfg), s.before, cfg)
    && s.job.budget == BudgetOf(s.dispatch.ledger, s.parent)
    && Enabled(s.dispatch, Accept(s.job, Some(s.parent)), cfg)
  }

  ghost predicate AboutToStart(s: Story, cfg: Policy)
    requires Enabled(s.dispatch, Accept(s.job, Some(s.parent)), cfg)
  {
    var accepted := Apply(s.dispatch, Accept(s.job, Some(s.parent)), cfg);
    && WaitingRun(accepted, s.waiting, |s.dispatch.queue|, cfg)
    && Run(accepted, s.waiting, cfg)
    && s.taken == RunTo(accepted, s.waiting, cfg)
    && s.taken.running.None? && s.taken.queue != [] && s.taken.queue[0] == s.job
  }

  lemma BacklogAtDispatch(s: Story, cfg: Policy)
    requires GoodPolicy(cfg) && Admitted(s, cfg) && Dispatched(s, cfg)
    ensures Valid(s.dispatch, cfg)
    ensures Backlog(s.dispatch, cfg) <= QueuedSecs(s.n.ledger, s.n.now, cfg.unknownSecs)
  {
    var decided := Decided(s, cfg);
    assert decided == Apply(s.n, Announce(s.parent, s.work, s.deadlineSecs), cfg);
    ApplyKeepsValid(s.n, Announce(s.parent, s.work, s.deadlineSecs), cfg);
    BacklogWithinHeld(s.n, cfg);
    assert Backlog(decided, cfg) == Backlog(s.n, cfg);
    CountedBacklog(decided, s.before, Estimates(Live(s.n.ledger.reserved, s.n.now)), cfg);
  }

  lemma WaitBeforeStart(s: Story, cfg: Policy)
    requires GoodPolicy(cfg) && Valid(s.dispatch, cfg)
    requires Enabled(s.dispatch, Accept(s.job, Some(s.parent)), cfg) && AboutToStart(s, cfg)
    ensures s.taken.now - s.dispatch.now <= Backlog(s.dispatch, cfg)
  {
    var accept := Accept(s.job, Some(s.parent));
    ApplyKeepsValid(s.dispatch, accept, cfg);
    var accepted := Apply(s.dispatch, accept, cfg);
    var place := |s.dispatch.queue|;
    assert accepted.queue[..place] == s.dispatch.queue;
    assert Ahead(accepted, place, cfg) == Backlog(s.dispatch, cfg);
    var place' := WaitingBound(accepted, s.waiting, place, cfg);
    assert place' == 0;
    assert s.taken.queue[..0] == [];
  }

  /** The job waits no longer than the queue that was counted when it was admitted. */
  lemma WaitsAtMostTheQueue(s: Story, cfg: Policy)
    requires GoodPolicy(cfg) && Admitted(s, cfg) && Dispatched(s, cfg) && AboutToStart(s, cfg)
    ensures s.taken.now - s.dispatch.now <= QueuedSecs(s.n.ledger, s.n.now, cfg.unknownSecs)
    ensures s.dispatch.now <= s.taken.now
  {
    BacklogAtDispatch(s, cfg);
    WaitBeforeStart(s, cfg);
    TimeMovesForward(Apply(s.dispatch, Accept(s.job, Some(s.parent)), cfg), s.waiting, cfg);
  }

  lemma {:induction false} TimeMovesForward(n: Node, steps: seq<Step>, cfg: Policy)
    requires Run(n, steps, cfg)
    ensures n.now <= RunTo(n, steps, cfg).now
    decreases |steps|
  {
    if steps != [] {
      TimeMovesForward(Apply(n, steps[0], cfg), steps[1..], cfg);
    }
  }

  /** The budget the dispatch finds is the one of the decision, or none after six hours. */
  lemma BudgetAtDispatch(s: Story, cfg: Policy)
    requires Admitted(s, cfg) && Dispatched(s, cfg)
    ensures s.job.budget in {None, Some(Budget(s.deadlineSecs, OwnSecs(s.work, cfg)))}
  {
    BudgetUnchanged(Decided(s, cfg), s.before, s.parent, cfg);
  }

  lemma MarginWithinLimit(cfg: Policy, deadlineSecs: nat)
    requires GoodPolicy(cfg)
    ensures Limit(cfg, deadlineSecs) <= cfg.ownTimeoutSecs as real
    ensures Limit(cfg, deadlineSecs) <= deadlineSecs as real
  {
    var least := if cfg.ownTimeoutSecs <= deadlineSecs then cfg.ownTimeoutSecs else deadlineSecs;
    ShareOfLimit(cfg.margin, least as real, Limit(cfg, deadlineSecs));
    hide Limit;
  }

  lemma ShareOfLimit(margin: real, least: real, limit: real)
    requires margin <= 1.0 && least >= 0.0 && limit == margin * least
    ensures limit <= least
  {
  }

  /** Any budget of the admitted size, checked after a wait within the counted queue. */
  lemma GrantCoversEstimate(budget: Option<Budget>, queued: real, own: real, deadlineSecs: nat, waited: real, slack: real, cfg: Policy)
    requires GoodPolicy(cfg) && queued >= 0.0
    requires queued + own <= Limit(cfg, deadlineSecs)
    requires budget in {None, Some(Budget(deadlineSecs, own))}
    requires 0.0 <= waited < queued + slack && 0.0 <= slack <= own
    ensures var granted := ComputeTimeout(cfg.ownTimeoutSecs, budget, waited);
            && granted.Some? && own - slack < granted.value <= cfg.ownTimeoutSecs as real
            && (budget.Some? ==> waited + granted.value <= budget.value.deadlineSecs as real)
  {
    MarginWithinLimit(cfg, deadlineSecs);
    GrantIsLongest(cfg.ownTimeoutSecs, budget, waited);
  }

  /**
   An admitted sub-task is never told that its deadline has passed, and core
   gets its own estimate, up to the time the accept took and the millisecond
   that two clock readings can lose, but never a second past the deadline.
   */
  lemma Schedulable(s: Story, cfg: Policy)
    requires GoodPolicy(cfg) && Admitted(s, cfg) && Dispatched(s, cfg) && AboutToStart(s, cfg)
    requires s.dispatch.now - s.job.acceptedAt + 0.001 <= OwnSecs(s.work, cfg)
    ensures var granted := ComputeTimeout(cfg.ownTimeoutSecs, s.job.budget, MeasuredWait(s.taken.now, s.job.acceptedAt));
            && granted.Some?
            && granted.value > OwnSecs(s.work, cfg) - (s.dispatch.now - s.job.acceptedAt) - 0.001
            && granted.value <= cfg.ownTimeoutSecs as real
            && (s.job.budget.Some? ==>
                  && s.job.budget.value.deadlineSecs == s.deadlineSecs
                  && MeasuredWait(s.taken.now, s.job.acceptedAt) + granted.value <= s.deadlineSecs as real)
  {
    WaitsAtMostTheQueue(s, cfg);
    BudgetAtDispatch(s, cfg);
    MeasuredWaitWithinAMillisecond(s.taken.now, s.job.acceptedAt);
    QueuedNonNegative(s.n, cfg);
    GrantCoversEstimate(s.job.budget, QueuedSecs(s.n.ledger, s.n.now, cfg.unknownSecs), OwnSecs(s.work, cfg), s.deadlineSecs,
      MeasuredWait(s.taken.now, s.job.acceptedAt), s.dispatch.now - s.job.acceptedAt + 0.001, cfg);
  }

  lemma QueuedNonNegative(n: Node, cfg: Policy)
    requires Valid(n, cfg) && GoodPolicy(cfg)
    ensures QueuedSecs(n.ledger, n.now, cfg.unknownSecs) >= 0.0
  {
    BacklogWithinHeld(n, cfg);
    TotalNonNegative(Estimates(Live(n.ledger.reserved, n.now)));
    SharesNonNegative(n.queue, cfg);
  }

  lemma {:induction false} SharesNonNegative(queue: seq<Job>, cfg: Policy)
    requires forall i :: 0 <= i < |queue| ==> Share(queue[i], cfg) >= 0.0
    ensures Shares(queue, cfg) >= 0.0
    decreases |queue|
  {
    if queue != [] {
      SharesNonNegative(queue[1..], cfg);
    }
  }

  lemma OwnSecsNonNegative(work: Work, cfg: Policy)
    requires GoodPolicy(cfg)
    ensures OwnSecs(work, cfg) >= 0.0
  {
    assert work.trafficBytes as real * cfg.rates.secondsPerByte >= 0.0;
    assert work.flops as real * cfg.rates.secondsPerFlop >= 0.0;
  }

  // ---------------------------------------------------------------------
  // Below one millisecond the clock readings can cost a sub-task its turn
  // ---------------------------------------------------------------------

  /** The bounds a measured rate falls in, and a configuration with such rates. */
  predicate Measured(rates: Rates) {
    0.0000000000001 <= rates.secondsPerByte <= 0.000001 && 0.00000000000001 <= rates.secondsPerFlop <= 0.000001
  }

  ghost function EmptyNode(now: real): Node {
    Node(now, EMPTY, [], None)
  }

  lemma EmptyNodeIsValid(now: real, cfg: Policy)
    ensures Valid(EmptyNode(now), cfg)
  {
    assert Ids([]) == {};
  }

  /** A node that some run from an empty one leads to. */
  ghost predicate Reached(n: Node, cfg: Policy) {
    exists start, steps :: Run(EmptyNode(start), steps, cfg) && RunTo(EmptyNode(start), steps, cfg) == n
  }

  lemma {:induction false} RunKeepsValid(n: Node, steps: seq<Step>, cfg: Policy)
    requires GoodPolicy(cfg) && Valid(n, cfg) && Run(n, steps, cfg)
    ensures Valid(RunTo(n, steps, cfg), cfg)
    decreases |steps|
  {
    hide Valid, Enabled, Apply;
    if steps != [] {
      ApplyKeepsValid(n, steps[0], cfg);
      RunKeepsValid(Apply(n, steps[0], cfg), steps[1..], cfg);
    }
  }

  /** From an empty node on, the held entries are always the queue and the running job. */
  lemma ReachedIsValid(n: Node, cfg: Policy)
    requires GoodPolicy(cfg) && Reached(n, cfg)
    ensures Valid(n, cfg)
  {
    hide Valid;
    var start, steps :| Run(EmptyNode(start), steps, cfg) && RunTo(EmptyNode(start), steps, cfg) == n;
    EmptyNodeIsValid(start, cfg);
    RunKeepsValid(EmptyNode(start), steps, cfg);
  }

  /** One second to spend, an overhead of `own`, and rates that fill the rest with 10^9 bytes. */
  function Tight(own: real): Policy {
    Policy(Rates((1.0 - 2.0 * own) / 1000000000.0, 0.000000001), own, 1.0, 1, 0.0)
  }

  const BIG := Work(1000000000, 0)

  const SMALL := Work(0, 0)

  lemma TightEstimates(own: real)
    requires 0.0 < own < 0.001
    ensures GoodPolicy(Tight(own)) && Measured(Tight(own).rates)
    ensures OwnSecs(BIG, Tight(own)) == 1.0 - own && OwnSecs(SMALL, Tight(own)) == own
    ensures Limit(Tight(own), 1) == 1.0
  {
    assert BIG.trafficBytes as real == 1000000000.0 && BIG.flops as real == 0.0;
    FillsTheRest(1.0 - 2.0 * own);
  }

  lemma FillsTheRest(rest: real)
    ensures 1000000000.0 * (rest / 1000000000.0) == rest
  {
  }

  function Busy(own: real): Job {
    Job("q_1", Some(Budget(1, 1.0 - own)), 1.0 + own)
  }

  function Short(own: real): Job {
    Job("p_1", Some(Budget(1, own)), 1.0 + own)
  }

  /** The big sub-task has been announced, accepted and started at once. */
  function BusyNode(own: real): Node {
    var now := 1.0 + own;
    Node(now,
      State(map["q" := Announced(Budget(1, 1.0 - own), now)], map[], map["q_1" := Held(Some(1.0 - own), Some(now))]),
      [], Some(Busy(own)))
  }

  lemma EmptyQueue(unknown: real, now: real)
    ensures QueuedSecs(EMPTY, now, unknown) == 0.0
  {
    assert HeldShares(map[], now, unknown) == map[];
    assert Estimates(Live(map[], now)) == map[];
  }

  lemma BusyNodeIsReached(own: real)
    requires 0.0 < own < 0.001
    ensures Reached(BusyNode(own), Tight(own))
  {
    var cfg, start := Tight(own), EmptyNode(1.0 + own);
    TightEstimates(own);
    EmptyQueue(cfg.unknownSecs, start.now);
    hide OwnSecs, Limit, QueuedSecs, Tight;
    var announce, accept := Announce("q", BIG, 1), Accept(Busy(own), Some("q"));
    var announced := Apply(start, announce, cfg);
    assert Live(EMPTY.reserved, start.now) == map[] && Recent(EMPTY.announced, start.now) == map[];
    assert announced.ledger == State(map["q" := Announced(Budget(1, 1.0 - own), start.now)], map["q" := Reservation(1.0 - own, start.now + RESERVATION_TTL)], map[]);
    var accepted := Apply(announced, accept, cfg);
    assert accepted.ledger.reserved == map[];
    var begun := Apply(accepted, Begin, cfg);
    assert begun == BusyNode(own);
    ThreeSteps(start, announce, accept, Begin, cfg);
  }

  lemma ThreeSteps(n: Node, a: Step, b: Step, c: Step, cfg: Policy)
    requires Enabled(n, a, cfg) && Enabled(Apply(n, a, cfg), b, cfg) && Enabled(Apply(Apply(n, a, cfg), b, cfg), c, cfg)
    ensures Run(n, [a, b, c], cfg)
    ensures RunTo(n, [a, b, c], cfg) == Apply(Apply(Apply(n, a, cfg), b, cfg), c, cfg)
  {
    hide Enabled, Apply;
    var first := Apply(n, a, cfg);
    var second := Apply(first, b, cfg);
    var third := Apply(second, c, cfg);
    assert Run(third, [], cfg);
    RunCons(second, c, [], cfg);
    RunCons(first, b, [c], cfg);
    RunCons(n, a, [b, c], cfg);
    assert [c] + [] == [c] && [b] + [c] == [b, c] && [a] + [b, c] == [a, b, c];
  }

  lemma RunCons(n: Node, step: Step, rest: seq<Step>, cfg: Policy)
    requires Enabled(n, step, cfg) && Run(Apply(n, step, cfg), rest, cfg)
    ensures Run(n, [step] + rest, cfg) && RunTo(n, [step] + rest, cfg) == RunTo(Apply(n, step, cfg), rest, cfg)
  {
    hide Enabled, Apply;
    assert ([step] + rest)[1..] == rest;
  }

  /** A sub-millisecond estimate fills a one-second deadline to the last bit. */
  ghost function ShortStory(own: real): Story {
    var n := BusyNode(own);
    var decided := n.(ledger := AfterDecide(n.ledger, "p", SMALL, 1, Tight(own), n.now));
    var accepted := decided.(ledger := AfterHold(decided.ledger, "p_1", Some("p"), Short(own).budget), queue := [Short(own)]);
    var taken := accepted.(now := 2.0, ledger := AfterRelease(accepted.ledger, "q_1"), running := None);
    Story(n, "p", SMALL, 1, [], decided, Short(own), [Tick(1.0 - own), Finish], taken)
  }

  lemma ShortStoryIsAdmitted(own: real)
    requires 0.0 < own < 0.001
    ensures Admitted(ShortStory(own), Tight(own))
    ensures DecisionOf(BusyNode(own).ledger, SMALL, 1, Tight(own), 1.0 + own) == Ok(Budget(1, own))
  {
    var n, cfg := BusyNode(own), Tight(own);
    TightEstimates(own);
    BusyNodeIsReached(own);
    ReachedIsValid(n, cfg);
    hide OwnSecs, Limit, Valid, Tight, Reached;
    var shares := HeldShares(n.ledger.held, n.now, cfg.unknownSecs);
    assert n.ledger.held["q_1"] == Held(Some(1.0 - own), Some(n.now));
    assert shares == map["q_1" := 1.0 - own];
    TotalRemove(shares, "q_1");
    assert shares - {"q_1"} == map[];
    assert Estimates(Live(n.ledger.reserved, n.now)) == map[];
  }

  lemma ShortStoryIsLate(own: real)
    requires 0.0 < own < 0.001
    ensures ComputeTimeout(1, Short(own).budget, MeasuredWait(2.0, 1.0 + own)).None?
  {
    assert (2.0 * 1000.0).Floor == 2000 && ((1.0 + own) * 1000.0).Floor == 1000;
  }

  lemma ShortStoryRuns(own: real)
    requires 0.0 < own < 0.001
    ensures Dispatched(ShortStory(own), Tight(own)) && AboutToStart(ShortStory(own), Tight(own))
  {
    ShortStoryIsAdmitted(own);
    var s, cfg := ShortStory(own), Tight(own);
    hide Valid, QueuedSecs, DecisionOf, MeasuredWait, Tight;
    assert Decided(s, cfg) == s.dispatch;
    var accepted := Apply(s.dispatch, Accept(s.job, Some(s.parent)), cfg);
    var later := Apply(accepted, Tick(1.0 - own), cfg);
    assert s.waiting[1..] == [Finish];
    ShortWait(later, cfg);
    assert Apply(later, Finish, cfg) == s.taken;
  }

  lemma ShortWait(later: Node, cfg: Policy)
    requires later.running.Some?
    ensures WaitingRun(later, [Finish], 0, cfg) && Run(later, [Finish], cfg)
    ensures RunTo(later, [Finish], cfg) == Apply(later, Finish, cfg)
  {
    assert [Finish][1..] == [];
  }

  /**
   A node as the code can meet it, started empty with measured rates, admits a
   sub-task with estimate `own`; it is counted, and its accept takes no time.
   */
  ghost predicate Punctual(s: Story, cfg: Policy, own: real) {
    && GoodPolicy(cfg) && Measured(cfg.rates) && Reached(s.n, cfg)
    && Admitted(s, cfg) && Dispatched(s, cfg) && AboutToStart(s, cfg)
    && s.dispatch.now == s.job.acceptedAt
    && OwnSecs(s.work, cfg) == own
  }

  ghost predicate Granted(s: Story, cfg: Policy) {
    ComputeTimeout(cfg.ownTimeoutSecs, s.job.budget, MeasuredWait(s.taken.now, s.job.acceptedAt)).Some?
  }

  ghost predicate AlwaysGranted(own: real) {
    forall s, cfg :: Punctual(s, cfg, own) ==> Granted(s, cfg)
  }

  /**
   One millisecond is the exact bound: from there on every admitted sub-task is
   started in time, and below it, for every estimate, a run from an empty node
   refuses one that waited exactly the counted queue.
   */
  lemma SchedulableFromOneMillisecond(own: real)
    requires own > 0.0
    ensures AlwaysGranted(own) <==> own >= 0.001
  {
    hide Admitted, Dispatched, AboutToStart, OwnSecs, Reached, Tight;
    if own >= 0.001 {
      forall s, cfg | Punctual(s, cfg, own) ensures Granted(s, cfg) {
        Schedulable(s, cfg);
      }
    } else {
      TightEstimates(own);
      BusyNodeIsReached(own);
      ShortStoryIsAdmitted(own);
      ShortStoryRuns(own);
      TightIsShort(own);
      assert Punctual(ShortStory(own), Tight(own), own);
      assert !Granted(ShortStory(own), Tight(own));
    }
  }

  lemma TightIsShort(own: real)
    requires 0.0 < own < 0.001
    ensures !Granted(ShortStory(own), Tight(own))
  {
    ShortStoryIsLate(own);
    hide AfterDecide, AfterHold, AfterRelease, MeasuredWait;
  }
}

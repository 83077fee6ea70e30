/**
 The work ledger (src/domain/work.rs): announced budgets, reservations that
 lapse, and held sub-tasks. Instants and durations are seconds, as exact reals.
 */
module Ledger {
  import opened Wrappers
  import opened MapSums

  /** Announced budgets are kept for six hours. */
  const ANNOUNCED_TTL: real := 21600.0

  /** A bid counts toward the queue for this long without a dispatch. */
  const RESERVATION_TTL: real := 15.0

  datatype Work = Work(trafficBytes: nat, flops: nat)

  datatype Rates = Rates(secondsPerByte: real, secondsPerFlop: real) {
    function Seconds(work: Work): real {
      work.trafficBytes as real * secondsPerByte + work.flops as real * secondsPerFlop
    }
  }

  datatype Budget = Budget(deadlineSecs: nat, expectedSecs: real)

  datatype Policy = Policy(
    rates: Rates,
    overheadSecs: real,
    margin: real,
    ownTimeoutSecs: nat,
    unknownSecs: real)

  datatype Held = Held(expected: Option<real>, started: Option<real>)

  datatype Announced = Announced(budget: Budget, at: real)

  datatype Reservation = Reservation(expected: real, until: real)

  /** The three maps of the ledger as one value. */
  datatype State = State(
    announced: map<string, Announced>,
    reserved: map<string, Reservation>,
    held: map<string, Held>)

  const EMPTY := State(map[], map[], map[])

  /** How long the node may wait for core; `None` once the deadline has passed. */
  function ComputeTimeout(ownSecs: nat, budget: Option<Budget>, waited: real): Option<real> {
    match budget
    case None => Some(ownSecs as real)
    case Some(b) =>
      if b.deadlineSecs as real - waited <= 0.0 then
        None
      else
        Some(Min(ownSecs as real, b.deadlineSecs as real - waited))
  }

  function Min(a: real, b: real): real {
    if a <= b then a else b
  }

  /** `Instant::duration_since`: never negative. */
  function Elapsed(now: real, at: real): real {
    if now <= at then 0.0 else now - at
  }

  /** What one held sub-task counts for. */
  function HeldShare(h: Held, now: real, unknown: real): real {
    match h
    case Held(None, _) => unknown
    case Held(Some(expected), None) => expected
    case Held(Some(expected), Some(at)) =>
      var left := expected - Elapsed(now, at);
      if left > 0.0 then left else expected
  }

  function HeldShares(held: map<string, Held>, now: real, unknown: real): map<string, real> {
    map k | k in held :: HeldShare(held[k], now, unknown)
  }

  function Live(reserved: map<string, Reservation>, now: real): map<string, Reservation> {
    map k | k in reserved && now < reserved[k].until :: reserved[k]
  }

  function Estimates(reserved: map<string, Reservation>): map<string, real> {
    map k | k in reserved :: reserved[k].expected
  }

  ghost function HeldSecs(held: map<string, Held>, now: real, unknown: real): real {
    Total(HeldShares(held, now, unknown))
  }

  /** Expected time before a new sub-task would start. */
  ghost function QueuedSecs(s: State, now: real, unknown: real): real {
    HeldSecs(s.held, now, unknown) + Total(Estimates(Live(s.reserved, now)))
  }

  function Limit(policy: Policy, deadlineSecs: nat): real {
    policy.margin * (if policy.ownTimeoutSecs <= deadlineSecs then policy.ownTimeoutSecs else deadlineSecs) as real
  }

  function OwnSecs(work: Work, policy: Policy): real {
    policy.rates.Seconds(work) + policy.overheadSecs
  }

  function Recent(announced: map<string, Announced>, now: real): map<string, Announced> {
    map k | k in announced && Elapsed(now, announced[k].at) < ANNOUNCED_TTL :: announced[k]
  }

  function Record(s: State, taskId: string, budget: Budget, now: real): State {
    s.(announced := Recent(s.announced, now)[taskId := Announced(budget, now)],
       reserved := s.reserved[taskId := Reservation(budget.expectedSecs, now + RESERVATION_TTL)])
  }

  ghost function DecisionOf(s: State, work: Work, deadlineSecs: nat, policy: Policy, now: real): Result<Budget, real> {
    var own := OwnSecs(work, policy);
    var total := QueuedSecs(s, now, policy.unknownSecs) + own;
    if total > Limit(policy, deadlineSecs) then Err(total) else Ok(Budget(deadlineSecs, own))
  }

  ghost function AfterDecide(s: State, taskId: string, work: Work, deadlineSecs: nat, policy: Policy, now: real): State {
    var purged := s.(reserved := Live(s.reserved, now));
    match DecisionOf(s, work, deadlineSecs, policy, now)
    case Err(_) => purged
    case Ok(budget) => Record(purged, taskId, budget, now)
  }

  function BudgetOf(s: State, parent: string): Option<Budget> {
    if parent in s.announced then Some(s.announced[parent].budget) else None
  }

  function ExpectedOf(budget: Option<Budget>): Option<real> {
    match budget
    case None => None
    case Some(b) => Some(b.expectedSecs)
  }

  function AfterHold(s: State, sub: string, parent: Option<string>, budget: Option<Budget>): State {
    s.(reserved := if parent.Some? then s.reserved - {parent.value} else s.reserved,
       held := s.held[sub := Held(ExpectedOf(budget), None)])
  }

  function AfterStart(s: State, sub: string, now: real): State {
    if sub in s.held then s.(held := s.held[sub := s.held[sub].(started := Some(now))]) else s
  }

  function AfterRelease(s: State, sub: string): State {
    s.(held := s.held - {sub})
  }

  /** The ledger object: three hash maps behind one lock. */
  class WorkLedger {
    var announced: map<string, Announced>
    var reserved: map<string, Reservation>
    var held: map<string, Held>

    function Contents(): State
      reads this
    {
      State(announced, reserved, held)
    }

    constructor ()
      ensures Contents() == EMPTY
    {
      announced, reserved, held := map[], map[], map[];
    }

    /** `queued_secs`: sums the held shares, then the live reservations. */
    method Queued(now: real, unknown: real) returns (secs: real)
      ensures secs == QueuedSecs(Contents(), now, unknown)
    {
      var heldSecs := SumValues(HeldShares(held, now, unknown));
      var reservedSecs := SumValues(Estimates(Live(reserved, now)));
      secs := heldSecs + reservedSecs;
    }

    method Decide(taskId: string, work: Work, deadlineSecs: nat, policy: Policy, now: real)
      returns (decision: Result<Budget, real>)
      modifies this
      ensures decision == DecisionOf(old(Contents()), work, deadlineSecs, policy, now)
      ensures Contents() == AfterDecide(old(Contents()), taskId, work, deadlineSecs, policy, now)
    {
      ghost var before := Contents();
      reserved := Live(reserved, now);
      assert Live(reserved, now) == reserved;
      var own := OwnSecs(work, policy);
      var queued := Queued(now, policy.unknownSecs);
      var total := queued + own;
      if total > Limit(policy, deadlineSecs) {
        return Err(total);
      }
      announced := Recent(announced, now);
      var budget := Budget(deadlineSecs, own);
      announced := announced[taskId := Announced(budget, now)];
      reserved := reserved[taskId := Reservation(own, now + RESERVATION_TTL)];
      return Ok(budget);
    }

    method BudgetFor(parent: string) returns (budget: Option<Budget>)
      ensures budget == BudgetOf(Contents(), parent)
    {
      budget := if parent in announced then Some(announced[parent].budget) else None;
    }

    method Hold(sub: string, parent: Option<string>, budget: Option<Budget>)
      modifies this
      ensures Contents() == AfterHold(old(Contents()), sub, parent, budget)
    {
      if parent.Some? {
        reserved := reserved - {parent.value};
      }
      held := held[sub := Held(ExpectedOf(budget), None)];
    }

    method Start(sub: string, now: real)
      modifies this
      ensures Contents() == AfterStart(old(Contents()), sub, now)
    {
      if sub in held {
        held := held[sub := held[sub].(started := Some(now))];
      }
    }

    method Release(sub: string)
      modifies this
      ensures Contents() == AfterRelease(old(Contents()), sub)
    {
      held := held - {sub};
    }
  }

  method SumValues(m: map<string, real>) returns (sum: real)
    ensures sum == Total(m)
  {
    sum := 0.0;
    var rest := m;
    while rest != map[]
      invariant sum + Total(rest) == Total(m)
      decreases |rest|
    {
      var k :| k in rest.Keys;
      TotalRemove(rest, k);
      sum := sum + rest[k];
      rest := rest - {k};
    }
  }

  // ---------------------------------------------------------------------
  // What the estimate and the grant mean
  // ---------------------------------------------------------------------

  /** No work costs nothing, one more byte or flop costs its rate. */
  ghost predicate Charges(cost: Work -> real, rates: Rates) {
    && cost(Work(0, 0)) == 0.0
    && (forall w: Work :: cost(w.(trafficBytes := w.trafficBytes + 1)) == cost(w) + rates.secondsPerByte)
    && (forall w: Work :: cost(w.(flops := w.flops + 1)) == cost(w) + rates.secondsPerFlop)
  }

  lemma OneMore(n: nat, rate: real)
    ensures (n + 1) as real * rate == n as real * rate + rate
  {
  }

  lemma OneMoreUnit(rates: Rates, w: Work)
    ensures rates.Seconds(w.(trafficBytes := w.trafficBytes + 1)) == rates.Seconds(w) + rates.secondsPerByte
    ensures rates.Seconds(w.(flops := w.flops + 1)) == rates.Seconds(w) + rates.secondsPerFlop
  {
    OneMore(w.trafficBytes, rates.secondsPerByte);
    OneMore(w.flops, rates.secondsPerFlop);
  }

  lemma SecondsCharge(rates: Rates)
    ensures Charges(w => rates.Seconds(w), rates)
  {
    assert rates.Seconds(Work(0, 0)) == 0.0;
    hide Rates.Seconds;
    forall w: Work
      ensures rates.Seconds(w.(trafficBytes := w.trafficBytes + 1)) == rates.Seconds(w) + rates.secondsPerByte
      ensures rates.Seconds(w.(flops := w.flops + 1)) == rates.Seconds(w) + rates.secondsPerFlop
    {
      OneMoreUnit(rates, w);
    }
  }

  lemma {:induction false} ChargesAgree(cost: Work -> real, other: Work -> real, rates: Rates, work: Work)
    requires Charges(cost, rates) && Charges(other, rates)
    ensures cost(work) == other(work)
    decreases work.trafficBytes + work.flops
  {
    if work.trafficBytes > 0 {
      var less := work.(trafficBytes := work.trafficBytes - 1);
      ChargesAgree(cost, other, rates, less);
      assert work == less.(trafficBytes := less.trafficBytes + 1);
    } else if work.flops > 0 {
      var less := work.(flops := work.flops - 1);
      ChargesAgree(cost, other, rates, less);
      assert work == less.(flops := less.flops + 1);
    } else {
      assert work == Work(0, 0);
    }
  }

  /** The estimate is the one cost that charges every byte and every flop its rate, and adds up. */
  lemma SecondsIsTheOnlyCost(rates: Rates, cost: Work -> real, work: Work, more: Work)
    requires Charges(cost, rates)
    ensures rates.Seconds(work) == cost(work)
    ensures rates.Seconds(Work(work.trafficBytes + more.trafficBytes, work.flops + more.flops)) == rates.Seconds(work) + rates.Seconds(more)
  {
    SecondsAdd(rates, work, more);
    hide Rates.Seconds;
    SecondsCharge(rates);
    hide Charges;
    ChargesAgree(w => rates.Seconds(w), cost, rates, work);
  }

  lemma SecondsAdd(rates: Rates, work: Work, more: Work)
    ensures rates.Seconds(Work(work.trafficBytes + more.trafficBytes, work.flops + more.flops)) == rates.Seconds(work) + rates.Seconds(more)
  {
    Distributes(work.trafficBytes, more.trafficBytes, rates.secondsPerByte);
    Distributes(work.flops, more.flops, rates.secondsPerFlop);
  }

  lemma Distributes(m: nat, n: nat, rate: real)
    ensures (m + n) as real * rate == m as real * rate + n as real * rate
  {
  }

  /**
   Work is admitted exactly if the counted queue, every byte and flop at its rate
   and the overhead together stay within the margin's share of the own timeout
   and of the deadline; the answer carries that estimate, or the refused total.
   */
  lemma AdmittedExactly(s: State, work: Work, deadlineSecs: nat, policy: Policy, now: real)
    ensures var bytes, flops := work.trafficBytes as real * policy.rates.secondsPerByte, work.flops as real * policy.rates.secondsPerFlop;
            var queued := QueuedSecs(s, now, policy.unknownSecs);
            var total := queued + (bytes + flops + policy.overheadSecs);
            var decision := DecisionOf(s, work, deadlineSecs, policy, now);
      && (policy.margin >= 0.0 ==>
            (decision.Ok? <==> total <= policy.margin * policy.ownTimeoutSecs as real && total <= policy.margin * deadlineSecs as real))
      && (decision.Ok? ==> decision.value == Budget(deadlineSecs, bytes + flops + policy.overheadSecs))
      && (decision.Err? ==> decision.error == total)
  {
    LimitIsBoth(policy, deadlineSecs);
    hide QueuedSecs, Limit;
  }

  lemma LimitIsBoth(policy: Policy, deadlineSecs: nat)
    ensures var own, deadline := policy.margin * policy.ownTimeoutSecs as real, policy.margin * deadlineSecs as real;
      && (Limit(policy, deadlineSecs) == own || Limit(policy, deadlineSecs) == deadline)
      && (policy.margin >= 0.0 ==> Limit(policy, deadlineSecs) <= own && Limit(policy, deadlineSecs) <= deadline)
  {
    if policy.margin >= 0.0 {
      if policy.ownTimeoutSecs <= deadlineSecs {
        ProductGrows(policy.margin, policy.ownTimeoutSecs as real, deadlineSecs as real);
      } else {
        ProductGrows(policy.margin, deadlineSecs as real, policy.ownTimeoutSecs as real);
      }
    }
  }

  lemma ProductGrows(factor: real, less: real, more: real)
    requires factor >= 0.0 && less <= more
    ensures factor * less <= factor * more
  {
  }

  /** Core may be given this long: not past the node's own timeout, and not past the deadline. */
  predicate MayGrant(ownSecs: nat, budget: Option<Budget>, waited: real, secs: real) {
    secs <= ownSecs as real && (budget.Some? ==> waited + secs <= budget.value.deadlineSecs as real)
  }

  /**
   Core is refused exactly when the deadline has passed; otherwise it gets the
   longest time that ends with the own timeout and with the deadline.
   */
  lemma GrantIsLongest(ownSecs: nat, budget: Option<Budget>, waited: real)
    ensures var granted := ComputeTimeout(ownSecs, budget, waited);
      && (granted.None? <==> budget.Some? && budget.value.deadlineSecs as real <= waited)
      && (granted.Some? ==>
            && MayGrant(ownSecs, budget, waited, granted.value)
            && forall secs :: MayGrant(ownSecs, budget, waited, secs) ==> secs <= granted.value)
  {
  }

  // ---------------------------------------------------------------------
  // Invariant and conservation
  // ---------------------------------------------------------------------

  /** Every reservation belongs to an announced budget and lapses 15 s after it. */
  ghost predicate Consistent(s: State, now: real) {
    forall p :: p in s.reserved ==>
      && p in s.announced
      && s.announced[p].budget.expectedSecs == s.reserved[p].expected
      && s.reserved[p].until == s.announced[p].at + RESERVATION_TTL
      && s.announced[p].at <= now
  }

  /** One call on the ledger, made at an instant. */
  datatype Call =
    | CallQueued(unknown: real)
    | CallDecide(taskId: string, work: Work, deadlineSecs: nat, policy: Policy)
    | CallBudget(parent: string)
    | CallHold(sub: string, holdParent: Option<string>, budget: Option<Budget>)
    | CallStart(sub: string)
    | CallRelease(sub: string)

  datatype TimedCall = TimedCall(at: real, call: Call)

  datatype Answer = Quiet | Secs(secs: real) | Decision(decision: Result<Budget, real>) | Found(budget: Option<Budget>)

  ghost function Next(s: State, c: TimedCall): State {
    match c.call
    case CallQueued(_) => s
    case CallDecide(t, w, d, p) => AfterDecide(s, t, w, d, p, c.at)
    case CallBudget(_) => s
    case CallHold(sub, parent, b) => AfterHold(s, sub, parent, b)
    case CallStart(sub) => AfterStart(s, sub, c.at)
    case CallRelease(sub) => AfterRelease(s, sub)
  }

  ghost function AnswerOf(s: State, c: TimedCall): Answer {
    match c.call
    case CallQueued(unknown) => Secs(QueuedSecs(s, c.at, unknown))
    case CallDecide(_, w, d, p) => Decision(DecisionOf(s, w, d, p, c.at))
    case CallBudget(parent) => Found(BudgetOf(s, parent))
    case _ => Quiet
  }

  ghost function Answers(s: State, calls: seq<TimedCall>): seq<Answer>
    decreases |calls|
  {
    if calls == [] then [] else [AnswerOf(s, calls[0])] + Answers(Next(s, calls[0]), calls[1..])
  }

  ghost function FinalState(s: State, calls: seq<TimedCall>): State
    decreases |calls|
  {
    if calls == [] then s else FinalState(Next(s, calls[0]), calls[1..])
  }

  /** Time never runs backwards over the calls, starting from `now`. */
  ghost predicate Ordered(now: real, calls: seq<TimedCall>)
    decreases |calls|
  {
    calls == [] || (now <= calls[0].at && Ordered(calls[0].at, calls[1..]))
  }

  ghost function LastInstant(now: real, calls: seq<TimedCall>): real
    decreases |calls|
  {
    if calls == [] then now else LastInstant(calls[0].at, calls[1..])
  }

  lemma NextKeepsConsistent(s: State, now: real, c: TimedCall)
    requires Consistent(s, now) && now <= c.at
    ensures Consistent(Next(s, c), c.at)
  {
    hide QueuedSecs, OwnSecs, Limit;
    match c.call
    case CallDecide(taskId, _, _, _) => DecideKeepsConsistent(s, now, c);
    case _ =>
  }

  lemma DecideKeepsConsistent(s: State, now: real, c: TimedCall)
    requires Consistent(s, now) && now <= c.at && c.call.CallDecide?
    ensures Consistent(Next(s, c), c.at)
  {
    hide QueuedSecs, OwnSecs, Limit;
    var next := Next(s, c);
    forall p | p in next.reserved && p != c.call.taskId
      ensures p in next.announced && next.announced[p] == s.announced[p] && next.reserved[p] == s.reserved[p]
    {
      assert s.reserved[p].until == s.announced[p].at + RESERVATION_TTL;
    }
  }

  /** The ledger invariant holds in every state a run of calls can reach. */
  lemma {:induction false} ReachableIsConsistent(s: State, now: real, calls: seq<TimedCall>)
    requires Consistent(s, now) && Ordered(now, calls)
    ensures Consistent(FinalState(s, calls), LastInstant(now, calls))
    decreases |calls|
  {
    if calls != [] {
      NextKeepsConsistent(s, now, calls[0]);
      ReachableIsConsistent(Next(s, calls[0]), calls[0].at, calls[1..]);
    }
  }

  /**
   A dispatch that arrives while its parent's reservation is live moves the
   estimate from the reservations to the held sub-tasks: nothing is counted
   twice and nothing is dropped.
   */
  lemma HoldConserves(s: State, now: real, sub: string, parent: string, unknown: real)
    requires Consistent(s, now)
    requires parent in Live(s.reserved, now) && sub !in s.held
    ensures QueuedSecs(AfterHold(s, sub, Some(parent), BudgetOf(s, parent)), now, unknown) == QueuedSecs(s, now, unknown)
  {
    var held := AfterHold(s, sub, Some(parent), BudgetOf(s, parent));
    var expected := s.reserved[parent].expected;
    TotalInsert(HeldShares(s.held, now, unknown), sub, expected);
    assert HeldShares(held.held, now, unknown) == HeldShares(s.held, now, unknown)[sub := expected];
    var live := Estimates(Live(s.reserved, now));
    TotalRemove(live, parent);
    assert Estimates(Live(held.reserved, now)) == live - {parent};
  }

  /**
   Until its release a held sub-task never stops counting: waiting or past its
   estimate it counts in full, while it runs it counts for what is left.
   */
  lemma ReleaseFreesItsShare(s: State, now: real, sub: string, unknown: real)
    requires sub in s.held
    ensures var h := s.held[sub];
            var freed := QueuedSecs(s, now, unknown) - QueuedSecs(AfterRelease(s, sub), now, unknown);
            var full := if h.expected.Some? then h.expected.value else unknown;
      && (freed > 0.0 <==> full > 0.0)
      && (full >= 0.0 ==> 0.0 <= freed <= full)
      && (h.expected.Some? && h.started.Some? && h.started.value <= now < h.started.value + full ==> now + freed == h.started.value + full)
      && (h.expected.None? || h.started.None? || now >= h.started.value + full ==> freed == full)
  {
    var shares := HeldShares(s.held, now, unknown);
    TotalRemove(shares, sub);
    assert HeldShares(AfterRelease(s, sub).held, now, unknown) == shares - {sub};
  }

  /** No call of the run announces `parent` again. */
  ghost predicate Unannounced(calls: seq<TimedCall>, parent: string) {
    forall i :: 0 <= i < |calls| && calls[i].call.CallDecide? ==> calls[i].call.taskId != parent
  }

  /** A budget is kept for six hours, whatever else is announced, held or decided. */
  lemma {:induction false} BudgetKeptSixHours(s: State, now: real, calls: seq<TimedCall>, parent: string)
    requires parent in s.announced && Ordered(now, calls) && Unannounced(calls, parent)
    requires s.announced[parent].at <= now
    requires LastInstant(now, calls) < s.announced[parent].at + 6.0 * 3600.0
    ensures BudgetOf(FinalState(s, calls), parent) == BudgetOf(s, parent)
    decreases |calls|
  {
    if calls != [] {
      var c := calls[0];
      LastInstantIsLater(c.at, calls[1..]);
      NextKeepsBudget(s, c, parent);
      BudgetKeptSixHours(Next(s, c), c.at, calls[1..], parent);
    }
  }

  lemma {:induction false} LastInstantIsLater(now: real, calls: seq<TimedCall>)
    requires Ordered(now, calls)
    ensures now <= LastInstant(now, calls)
    decreases |calls|
  {
    if calls != [] {
      LastInstantIsLater(calls[0].at, calls[1..]);
    }
  }

  lemma NextKeepsBudget(s: State, c: TimedCall, parent: string)
    requires parent in s.announced && s.announced[parent].at <= c.at < s.announced[parent].at + ANNOUNCED_TTL
    requires c.call.CallDecide? ==> c.call.taskId != parent
    ensures parent in Next(s, c).announced && Next(s, c).announced[parent] == s.announced[parent]
  {
    hide QueuedSecs, OwnSecs, Limit;
  }

  /** After six hours the next accepted announcement, and nothing else, forgets it. */
  lemma BudgetForgottenOnAcceptance(s: State, c: TimedCall, parent: string)
    requires parent in s.announced && c.at >= s.announced[parent].at + 6.0 * 3600.0
    requires c.call.CallDecide? ==> c.call.taskId != parent
    ensures BudgetOf(Next(s, c), parent) ==
              if c.call.CallDecide? && DecisionOf(s, c.call.work, c.call.deadlineSecs, c.call.policy, c.at).Ok?
              then None else BudgetOf(s, parent)
  {
    hide QueuedSecs, OwnSecs, Limit;
  }

  /** No call of the run holds a sub-task of `parent`, or announces it again. */
  ghost predicate Undispatched(calls: seq<TimedCall>, parent: string) {
    && Unannounced(calls, parent)
    && forall i :: 0 <= i < |calls| && calls[i].call.CallHold? ==> calls[i].call.holdParent != Some(parent)
  }

  /** `parent` counts with what it was reserved for, until `until` and no longer. */
  ghost predicate ReservedUntil(s: State, parent: string, expected: real, until: real, now: real) {
    && (now < until ==> parent in s.reserved)
    && (parent in s.reserved ==> s.reserved[parent] == Reservation(expected, until))
  }

  lemma NextKeepsReservation(s: State, c: TimedCall, parent: string, expected: real, until: real, now: real)
    requires ReservedUntil(s, parent, expected, until, now) && now <= c.at && Undispatched([c], parent)
    ensures ReservedUntil(Next(s, c), parent, expected, until, c.at)
  {
    hide QueuedSecs, OwnSecs, Limit;
    assert [c][0] == c;
  }

  lemma {:induction false} RunKeepsReservation(s: State, now: real, calls: seq<TimedCall>, parent: string, expected: real, until: real)
    requires ReservedUntil(s, parent, expected, until, now) && Ordered(now, calls) && Undispatched(calls, parent)
    ensures ReservedUntil(FinalState(s, calls), parent, expected, until, LastInstant(now, calls))
    decreases |calls|
  {
    hide ReservedUntil, Next;
    if calls != [] {
      assert [calls[0]][0] == calls[0];
      NextKeepsReservation(s, calls[0], parent, expected, until, now);
      RunKeepsReservation(Next(s, calls[0]), calls[0].at, calls[1..], parent, expected, until);
    }
  }

  /**
   A bid whose work was admitted counts its estimate toward the queue for the
   next fifteen seconds, whatever else happens, unless its dispatch arrives.
   */
  lemma ReservationCountsFifteenSeconds(s: State, taskId: string, work: Work, deadlineSecs: nat, policy: Policy, now: real, calls: seq<TimedCall>, later: real)
    requires DecisionOf(s, work, deadlineSecs, policy, now).Ok?
    requires Ordered(now, calls) && Undispatched(calls, taskId) && LastInstant(now, calls) <= later
    ensures var end := FinalState(AfterDecide(s, taskId, work, deadlineSecs, policy, now), calls);
            var own := DecisionOf(s, work, deadlineSecs, policy, now).value.expectedSecs;
      && (taskId in Live(end.reserved, later) <==> later < now + 15.0)
      && (later < now + 15.0 ==> forall unknown ::
            QueuedSecs(end, later, unknown) == QueuedSecs(end.(reserved := end.reserved - {taskId}), later, unknown) + own)
  {
    var decided := AfterDecide(s, taskId, work, deadlineSecs, policy, now);
    var own := DecisionOf(s, work, deadlineSecs, policy, now).value.expectedSecs;
    assert ReservedUntil(decided, taskId, own, now + 15.0, now);
    RunKeepsReservation(decided, now, calls, taskId, own, now + 15.0);
    hide AfterDecide, DecisionOf;
    var end := FinalState(decided, calls);
    LastInstantIsLater(now, calls);
    if later < now + 15.0 {
      DroppedReservation(end, taskId, later);
    }
  }

  lemma DroppedReservation(s: State, parent: string, now: real)
    requires parent in Live(s.reserved, now)
    ensures forall unknown :: QueuedSecs(s, now, unknown) ==
                                QueuedSecs(s.(reserved := s.reserved - {parent}), now, unknown) + s.reserved[parent].expected
  {
    var live := Estimates(Live(s.reserved, now));
    TotalRemove(live, parent);
    assert Estimates(Live(s.reserved - {parent}, now)) == live - {parent};
  }

  // ---------------------------------------------------------------------
  // Lazy expiry refines exact expiry
  // ---------------------------------------------------------------------

  /** The ideal ledger has already dropped every reservation due by `now`. */
  function Expire(s: State, now: real): State {
    s.(reserved := Live(s.reserved, now))
  }

  /** The ideal ledger counts every reservation it still has, without a filter. */
  ghost function IdealQueuedSecs(s: State, now: real, unknown: real): real {
    HeldSecs(s.held, now, unknown) + Total(Estimates(s.reserved))
  }

  ghost function IdealDecision(s: State, work: Work, deadlineSecs: nat, policy: Policy, now: real): Result<Budget, real> {
    var own := OwnSecs(work, policy);
    var total := IdealQueuedSecs(s, now, policy.unknownSecs) + own;
    if total > Limit(policy, deadlineSecs) then Err(total) else Ok(Budget(deadlineSecs, own))
  }

  ghost function IdealNext(s: State, c: TimedCall): State {
    match c.call
    case CallQueued(_) => s
    case CallDecide(t, w, d, p) =>
      (match IdealDecision(s, w, d, p, c.at)
       case Err(_) => s
       case Ok(budget) => Record(s, t, budget, c.at))
    case CallBudget(_) => s
    case CallHold(sub, parent, b) => AfterHold(s, sub, parent, b)
    case CallStart(sub) => AfterStart(s, sub, c.at)
    case CallRelease(sub) => AfterRelease(s, sub)
  }

  ghost function IdealAnswer(s: State, c: TimedCall): Answer {
    match c.call
    case CallQueued(unknown) => Secs(IdealQueuedSecs(s, c.at, unknown))
    case CallDecide(_, w, d, p) => Decision(IdealDecision(s, w, d, p, c.at))
    case CallBudget(parent) => Found(BudgetOf(s, parent))
    case _ => Quiet
  }

  /** Between two calls the ideal ledger drops what falls due. */
  ghost function IdealAnswers(s: State, calls: seq<TimedCall>): seq<Answer>
    decreases |calls|
  {
    if calls == [] then
      []
    else
      var due := Expire(s, calls[0].at);
      [IdealAnswer(due, calls[0])] + IdealAnswers(IdealNext(due, calls[0]), calls[1..])
  }

  /** The lazy ledger, once purged, is the ideal one. */
  ghost predicate Matches(lazy: State, ideal: State, now: real) {
    Expire(lazy, now) == Expire(ideal, now)
  }

  lemma MatchesLater(lazy: State, ideal: State, now: real, later: real)
    requires Matches(lazy, ideal, now) && now <= later
    ensures Matches(lazy, ideal, later)
  {
    assert Live(lazy.reserved, later) == Live(Live(lazy.reserved, now), later);
    assert Live(ideal.reserved, later) == Live(Live(ideal.reserved, now), later);
  }

  lemma NextKeepsMatch(lazy: State, ideal: State, c: TimedCall)
    requires Matches(lazy, ideal, c.at)
    ensures AnswerOf(lazy, c) == IdealAnswer(Expire(ideal, c.at), c)
    ensures Matches(Next(lazy, c), IdealNext(Expire(ideal, c.at), c), c.at)
  {
    var due := Expire(ideal, c.at);
    assert Live(due.reserved, c.at) == due.reserved;
    match c.call
    case CallHold(sub, parent, b) =>
      if parent.Some? {
        assert Live(lazy.reserved - {parent.value}, c.at) == Live(lazy.reserved, c.at) - {parent.value};
        assert Live(due.reserved - {parent.value}, c.at) == due.reserved - {parent.value};
      }
    case _ =>
  }

  lemma {:induction false} MatchingLedgersAgree(lazy: State, ideal: State, now: real, calls: seq<TimedCall>)
    requires Matches(lazy, ideal, now) && Ordered(now, calls)
    ensures Answers(lazy, calls) == IdealAnswers(ideal, calls)
    decreases |calls|
  {
    if calls != [] {
      var c := calls[0];
      MatchesLater(lazy, ideal, now, c.at);
      NextKeepsMatch(lazy, ideal, c);
      MatchingLedgersAgree(Next(lazy, c), IdealNext(Expire(ideal, c.at), c), c.at, calls[1..]);
    }
  }

  /**
   Clearing reservations only inside `decide` and filtering them inside
   `queued_secs` is observably the same as dropping each one the moment it
   lapses: every queue length, decision and budget of every run agrees.
   */
  lemma LazyExpiryIsExact(s: State, now: real, calls: seq<TimedCall>)
    requires Ordered(now, calls)
    ensures Answers(s, calls) == IdealAnswers(Expire(s, now), calls)
  {
    assert Live(Live(s.reserved, now), now) == Live(s.reserved, now);
    MatchingLedgersAgree(s, Expire(s, now), now, calls);
  }

  /** A refused decision leaves no trace in anything a later call can see. */
  lemma RefusalLeavesNoTrace(s: State, taskId: string, work: Work, deadlineSecs: nat, policy: Policy, now: real, calls: seq<TimedCall>)
    requires DecisionOf(s, work, deadlineSecs, policy, now).Err?
    requires Ordered(now, calls)
    ensures Answers(AfterDecide(s, taskId, work, deadlineSecs, policy, now), calls) == Answers(s, calls)
  {
    var refused := AfterDecide(s, taskId, work, deadlineSecs, policy, now);
    assert refused == Expire(s, now);
    LazyExpiryIsExact(s, now, calls);
    LazyExpiryIsExact(refused, now, calls);
    assert Expire(refused, now) == Expire(s, now);
  }
}

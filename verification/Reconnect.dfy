/**
 Keeping the orchestrator connected (src/transport/p2p/host.rs): the redial
 timer, and one gossip subscription shared by all transports of a connection.
 */
module Reconnect {
  import opened Words
  import opened Wrappers

  const FIRST_DELAY: nat := 1
  const LONGEST_DELAY: nat := 60

  /** `bootstrap_redial_delay`, in seconds: the shift is capped before the multiplier. */
  function RedialDelay(attempt: Word32): nat {
    Least(FIRST_DELAY * Pow2(Least(attempt, 16)), LONGEST_DELAY)
  }

  /** The delay doubles from one second up to a minute, and never goes down again. */
  lemma DelayIsCappedPower(attempt: Word32)
    ensures RedialDelay(attempt) == Least(Pow2(attempt), 60)
  {
    assert Pow2(6) == 64;
    if attempt > 16 {
      Pow2Grows(6, 16);
      Pow2Grows(6, attempt);
    }
  }

  lemma DelayGrows(earlier: Word32, later: Word32)
    requires earlier <= later
    ensures RedialDelay(earlier) <= RedialDelay(later)
  {
    DelayIsCappedPower(earlier);
    DelayIsCappedPower(later);
    Pow2Grows(earlier, later);
  }

  // ---------------------------------------------------------------------
  // The host loop
  // ---------------------------------------------------------------------

  /**
   `transports` counts the orchestrator's connections and `subscribed` is what
   the swarm tells gossip peers; the other three are the loop's variables. The
   last two record the delays since the last connection and every unsubscribe.
   */
  datatype Host = Host(
    transports: nat,
    subscribed: bool,
    attempt: Word32,
    sleep: Option<nat>,
    live: bool,
    delays: seq<nat>,
    cuts: nat)

  const STARTED := Host(0, false, 0, Some(FIRST_DELAY), false, [FIRST_DELAY], 0)

  datatype Event =
    | Established(orchestrator: bool, subscribeOk: bool)
    | Closed(orchestrator: bool)
    | DialFailed(orchestrator: bool)
    | TimerFired

  function Schedule(h: Host): Host {
    h.(sleep := Some(RedialDelay(h.attempt)), delays := h.delays + [RedialDelay(h.attempt)])
  }

  function Unsubscribe(h: Host): Host {
    h.(subscribed := false, cuts := h.cuts + 1)
  }

  /** `ensure_orchestrator_gossip_subscription` */
  function EnsureGossip(h: Host, subscribeOk: bool): Host {
    if h.live then h
    else if subscribeOk then Unsubscribe(h).(subscribed := true, live := true)
    else Unsubscribe(h)
  }

  function AfterEstablished(h: Host, subscribeOk: bool): Host {
    EnsureGossip(h.(transports := h.transports + 1, attempt := 0, sleep := None, delays := []), subscribeOk)
  }

  function AfterClosed(h: Host): Host
    requires h.transports > 0
  {
    var closed := h.(transports := h.transports - 1);
    Schedule(if closed.transports == 0 then Unsubscribe(closed).(live := false) else closed)
  }

  function AfterTimer(h: Host): Host {
    var redialed := h.(attempt := Least(h.attempt + 1, 0xFFFF_FFFF), sleep := None);
    if h.transports == 0 then Schedule(redialed) else redialed
  }

  predicate Possible(h: Host, e: Event) {
    match e
    case Closed(orchestrator) => orchestrator ==> h.transports > 0
    case TimerFired => h.sleep.Some?
    case _ => true
  }

  function After(h: Host, e: Event): Host
    requires Possible(h, e)
  {
    match e
    case Established(orchestrator, subscribeOk) => if orchestrator then AfterEstablished(h, subscribeOk) else h
    case Closed(orchestrator) => if orchestrator then AfterClosed(h) else h
    case DialFailed(orchestrator) => if orchestrator then Schedule(h) else h
    case TimerFired => AfterTimer(h)
  }

  /** The loop's variables, updated event by event. */
  class HostLoop {
    var transports: nat
    var subscribed: bool
    var attempt: Word32
    var sleep: Option<nat>
    var live: bool
    ghost var delays: seq<nat>
    ghost var cuts: nat

    ghost function State(): Host
      reads this
    {
      Host(transports, subscribed, attempt, sleep, live, delays, cuts)
    }

    /** Started before the orchestrator is connected. */
    constructor ()
      ensures State() == STARTED
    {
      transports, subscribed, attempt, live := 0, false, 0, false;
      sleep, delays, cuts := Some(FIRST_DELAY), [FIRST_DELAY], 0;
    }

    method ScheduleRedial()
      modifies this`sleep, this`delays
      ensures State() == Schedule(old(State()))
    {
      var delay := RedialDelay(attempt);
      sleep := Some(delay);
      delays := delays + [delay];
    }

    method EnsureSubscription(subscribeOk: bool)
      modifies this`subscribed, this`live, this`cuts
      ensures State() == EnsureGossip(old(State()), subscribeOk)
    {
      if live {
        return;
      }
      subscribed, cuts := false, cuts + 1;
      if subscribeOk {
        subscribed := true;
        live := true;
      }
    }

    method HandleEvent(e: Event)
      requires Possible(State(), e)
      modifies this
      ensures State() == After(old(State()), e)
    {
      match e {
        case Established(orchestrator, subscribeOk) =>
          if orchestrator {
            transports := transports + 1;
            attempt, sleep, delays := 0, None, [];
            EnsureSubscription(subscribeOk);
          }
        case Closed(orchestrator) =>
          if orchestrator {
            transports := transports - 1;
            if transports == 0 {
              subscribed, cuts := false, cuts + 1;
              live := false;
            }
            ScheduleRedial();
          }
        case DialFailed(orchestrator) =>
          if orchestrator {
            ScheduleRedial();
          }
        case TimerFired =>
          attempt := if attempt < 0xFFFF_FFFF then attempt + 1 else attempt;
          sleep := None;
          if transports == 0 {
            ScheduleRedial();
          }
      }
    }
  }

  // ---------------------------------------------------------------------
  // Every run
  // ---------------------------------------------------------------------

  ghost predicate Rising(delays: seq<nat>) {
    forall i, j :: 0 <= i < j < |delays| ==> delays[i] <= delays[j]
  }

  /** Disconnected means a redial is due; a live flag means connected and subscribed. */
  ghost predicate Sound(h: Host) {
    && (h.transports == 0 ==> h.sleep.Some?)
    && (h.live ==> h.transports > 0 && h.subscribed)
    && (h.sleep.Some? ==> h.delays != [] && h.sleep.value == h.delays[|h.delays| - 1])
    && Rising(h.delays)
    && (forall i :: 0 <= i < |h.delays| ==> h.delays[i] <= RedialDelay(h.attempt))
  }

  lemma ScheduleKeepsRising(h: Host)
    requires Rising(h.delays) && forall i :: 0 <= i < |h.delays| ==> h.delays[i] <= RedialDelay(h.attempt)
    ensures Rising(Schedule(h).delays)
    ensures forall i :: 0 <= i < |Schedule(h).delays| ==> Schedule(h).delays[i] <= RedialDelay(h.attempt)
  {
  }

  lemma AfterKeepsSound(h: Host, e: Event)
    requires Sound(h) && Possible(h, e)
    ensures Sound(After(h, e))
  {
    hide RedialDelay;
    if e.TimerFired? {
      DelayGrows(h.attempt, Least(h.attempt + 1, 0xFFFF_FFFF));
    }
    ScheduleKeepsRising(h);
    if e.TimerFired? {
      ScheduleKeepsRising(h.(attempt := Least(h.attempt + 1, 0xFFFF_FFFF)));
    }
  }

  ghost predicate Run(h: Host, events: seq<Event>)
    decreases |events|
  {
    events == [] || (Possible(h, events[0]) && Run(After(h, events[0]), events[1..]))
  }

  ghost function RunTo(h: Host, events: seq<Event>): Host
    requires Run(h, events)
    decreases |events|
  {
    if events == [] then h else RunTo(After(h, events[0]), events[1..])
  }

  /**
   Over every sequence of events on any number of transports: a disconnected
   orchestrator has a redial scheduled, a live gossip flag means connected and
   subscribed, and the delays since the last connection only grow.
   */
  lemma {:induction false} EveryRunIsSound(h: Host, events: seq<Event>)
    requires Sound(h) && Run(h, events)
    ensures Sound(RunTo(h, events))
    decreases |events|
  {
    hide Sound, Possible, After;
    if events != [] {
      AfterKeepsSound(h, events[0]);
      EveryRunIsSound(After(h, events[0]), events[1..]);
    }
  }

  lemma StartedSound()
    ensures Sound(STARTED)
  {
  }

  lemma EveryRunFromStartIsSound(events: seq<Event>)
    requires Run(STARTED, events)
    ensures Sound(RunTo(STARTED, events))
  {
    StartedSound();
    EveryRunIsSound(STARTED, events);
  }

  /** The gossip flag is live before every event of the run and after it. */
  ghost predicate StaysLive(h: Host, events: seq<Event>)
    requires Run(h, events)
    decreases |events|
  {
    h.live && (events == [] || StaysLive(After(h, events[0]), events[1..]))
  }

  /** While the flag stays live the node never unsubscribes, whatever transports come and go. */
  lemma {:induction false} NoCutWhileLive(h: Host, events: seq<Event>)
    requires Sound(h) && Run(h, events) && StaysLive(h, events)
    ensures RunTo(h, events).cuts == h.cuts
    ensures RunTo(h, events).subscribed && RunTo(h, events).transports > 0
    decreases |events|
  {
    if events != [] {
      AfterKeepsSound(h, events[0]);
      NoCutWhileLive(After(h, events[0]), events[1..]);
    }
  }

  /** The flag goes down exactly when the last transport closes. */
  lemma LiveEndsWithTheLastTransport(h: Host, e: Event)
    requires Sound(h) && Possible(h, e) && h.live
    ensures !After(h, e).live <==> e == Closed(true) && h.transports == 1
  {
  }

  /** How many redials there were since the last connection, if there were `before` at first. */
  function Redials(before: nat, events: seq<Event>): nat
    decreases |events|
  {
    if events == [] then before
    else if events[0].TimerFired? then Redials(before + 1, events[1..])
    else if events[0] == Established(true, true) || events[0] == Established(true, false) then Redials(0, events[1..])
    else Redials(before, events[1..])
  }

  /** The timer, if set, is set to the delay after `redials` redials. */
  ghost predicate Counts(h: Host, redials: nat) {
    && h.attempt == Least(redials, 0xFFFF_FFFF)
    && (h.sleep.Some? ==> h.sleep.value == RedialDelay(h.attempt))
  }

  lemma AfterCounts(h: Host, redials: nat, e: Event)
    requires Counts(h, redials) && Possible(h, e)
    ensures Counts(After(h, e), if e.TimerFired? then redials + 1 else if e.Established? && e.orchestrator then 0 else redials)
  {
    hide RedialDelay;
  }

  lemma {:induction false} RunCounts(h: Host, redials: nat, events: seq<Event>)
    requires Counts(h, redials) && Run(h, events)
    ensures Counts(RunTo(h, events), Redials(redials, events))
    decreases |events|
  {
    hide Counts, Possible, After;
    if events != [] {
      AfterCounts(h, redials, events[0]);
      var next := if events[0].TimerFired? then redials + 1 else if events[0].Established? && events[0].orchestrator then 0 else redials;
      RunCounts(After(h, events[0]), next, events[1..]);
    }
  }

  lemma LastWordDelay(n: nat)
    ensures Least(Pow2(Least(n, 0xFFFF_FFFF)), 60) == Least(Pow2(n), 60)
  {
    if n > 0xFFFF_FFFF {
      assert Pow2(6) == 64;
      Pow2Grows(6, 0xFFFF_FFFF);
      Pow2Grows(6, n);
    }
  }

  /**
   In every run from the start: after n redials since the last connection the
   timer, whenever it is set, is set to 2^n seconds, or to a minute if that is less.
   */
  lemma NthRedialWaitsTwoToTheN(events: seq<Event>)
    requires Run(STARTED, events)
    ensures var h, n := RunTo(STARTED, events), Redials(0, events);
            h.sleep.Some? ==> h.sleep.value == Least(Pow2(n), 60)
  {
    assert RedialDelay(0) == 1;
    RunCounts(STARTED, 0, events);
    var n := Redials(0, events);
    DelayIsCappedPower(Least(n, 0xFFFF_FFFF));
    LastWordDelay(n);
    hide Run, RunTo, RedialDelay;
  }

  /** What happens from one event to the next, on one run: two redials, a connection with two transports, and its end. */
  lemma OneConnectionComesAndGoes()
    ensures var events := [TimerFired, DialFailed(true), TimerFired, Established(true, true), Established(true, false),
                           Closed(true), TimerFired, Closed(false), Closed(true)];
      Run(STARTED, events) && RunTo(STARTED, events) == Host(0, false, 1, Some(2), false, [1, 2], 2)
  {
    var a := After(STARTED, TimerFired);
    assert a == Host(0, false, 1, Some(2), false, [1, 2], 0);
    var b := After(After(a, DialFailed(true)), TimerFired);
    assert b == Host(0, false, 2, Some(4), false, [1, 2, 2, 4], 0);
    var c := After(After(b, Established(true, true)), Established(true, false));
    assert c == Host(2, true, 0, None, true, [], 1);
    var d := After(After(c, Closed(true)), TimerFired);
    assert d == Host(1, true, 1, None, true, [1], 1);
    var e := After(After(d, Closed(false)), Closed(true));
    assert e == Host(0, false, 1, Some(2), false, [1, 2], 2);
  }
}

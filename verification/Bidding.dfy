/**
 Judging an announcement and bidding on it (src/domain/p2p.rs, features.rs,
 bid.rs and src/transport/p2p/bid_client.rs).
 */
module Bidding {
  import opened Wrappers
  import opened Bytes
  import opened Words
  import opened Ledger

  // ---------------------------------------------------------------------
  // Features
  // ---------------------------------------------------------------------

  /** A feature mask as the set of its one-bits: `|` is union, `&` intersection. */
  type Mask = set<nat>

  const STANDARD_GATES: nat := 0
  const CUSTOM_UNITARY: nat := 1
  const GATE_SPLIT: nat := 3
  const WORK_BUDGET: nat := 4

  /** The one-bits of a `u32`. */
  function BitsOf(n: Word32): Mask {
    set k: nat | k < 32 && n / Pow2(k) % 2 == 1
  }

  function GateFeature(gate: string): Mask {
    if gate in ["H", "X", "Y", "Z", "S", "T", "CNOT", "CZ", "CCNOT"] then {STANDARD_GATES}
    else if gate in ["RX", "RY", "RZ"] then {CUSTOM_UNITARY}
    else if gate == "NETWORK_GATE_SPLIT" then {GATE_SPLIT}
    else {}
  }

  function GateFeatures(gates: seq<string>): Mask {
    set g, k | g in gates && k in GateFeature(g) :: k
  }

  method FeaturesFromGates(gates: seq<string>) returns (features: Mask)
    ensures features == GateFeatures(gates)
  {
    hide GateFeature;
    features := {};
    for i := 0 to |gates|
      invariant features == GateFeatures(gates[..i])
    {
      assert gates[..i + 1] == gates[..i] + [gates[i]];
      features := features + GateFeature(gates[i]);
    }
    assert gates[..|gates|] == gates;
  }

  function NodeFeatures(gates: seq<string>, judgesWork: bool): Mask {
    if judgesWork then GateFeatures(gates) + {WORK_BUDGET} else GateFeatures(gates)
  }

  predicate Supports(supported: Mask, required: Mask) {
    supported * required == required
  }

  /** A node that cannot judge work never passes for one that can. */
  lemma WorkBitNeedsRates(gates: seq<string>, judgesWork: bool, required: Mask)
    ensures Supports(NodeFeatures(gates, judgesWork), required) <==>
              Supports(GateFeatures(gates), required - {WORK_BUDGET}) && (WORK_BUDGET in required ==> judgesWork)
  {
    hide GateFeature;
    forall g | g in gates ensures WORK_BUDGET !in GateFeature(g) {
      GatesJudgeNoWork(g);
    }
    assert Supports(GateFeatures(gates), required) ==> forall k :: k in required ==> k in GateFeatures(gates);
    assert Supports(NodeFeatures(gates, judgesWork), required) ==> forall k :: k in required ==> k in NodeFeatures(gates, judgesWork);
    assert Supports(GateFeatures(gates), required - {WORK_BUDGET}) ==> forall k :: k in required - {WORK_BUDGET} ==> k in GateFeatures(gates);
  }

  lemma GatesJudgeNoWork(gate: string)
    ensures WORK_BUDGET !in GateFeature(gate)
  {
  }

  // ---------------------------------------------------------------------
  // Announcements
  // ---------------------------------------------------------------------

  datatype Announcement = Announcement(
    taskId: string, qubits: Word32, required: Word32, difficulty: Word32, votes: Word32, nonce: Word64,
    deadlineSecs: Option<Word32>, work: Option<SignedWork>)

  datatype SignedWork = SignedWork(trafficBytes: Word64, flops: Word64)

  datatype Message = Message(announcement: Announcement, signature: string, signatureV2: Option<string>)

  /** Bit 4 of the required features is set. */
  predicate AsksForWork(a: Announcement) {
    WORK_BUDGET in BitsOf(a.required)
  }

  datatype Refusal = NoWork | NoDeadline | NotSigned | BadSignature

  function Numbers(a: Announcement): seq<Byte> {
    Be32(a.qubits) + (Be32(a.required) + (Be32(a.difficulty) + (Be32(a.votes) + Be64(a.nonce))))
  }

  function PayloadV1(a: Announcement): seq<Byte> {
    Utf8(a.taskId) + Numbers(a)
  }

  function WorkBytes(deadline: Word32, work: SignedWork): seq<Byte> {
    Be32(deadline) + (Be64(work.trafficBytes) + Be64(work.flops))
  }

  function PayloadV2(a: Announcement): Option<seq<Byte>> {
    if a.work.Some? && a.deadlineSecs.Some?
    then Some(PayloadV1(a) + WorkBytes(a.deadlineSecs.value, a.work.value))
    else None
  }

  /** `serialize_announcement_payload` */
  method SerializeAnnouncement(a: Announcement) returns (payload: seq<Byte>)
    ensures payload == PayloadV1(a)
  {
    hide Be32, Be64, Utf8;
    payload := Utf8(a.taskId);
    payload := payload + Be32(a.qubits);
    payload := payload + Be32(a.required);
    payload := payload + Be32(a.difficulty);
    payload := payload + Be32(a.votes);
    payload := payload + Be64(a.nonce);
    NumbersNest(Utf8(a.taskId), Be32(a.qubits), Be32(a.required), Be32(a.difficulty), Be32(a.votes), Be64(a.nonce));
  }

  lemma NumbersNest(start: seq<Byte>, a: seq<Byte>, b: seq<Byte>, c: seq<Byte>, d: seq<Byte>, e: seq<Byte>)
    ensures ((((start + a) + b) + c) + d) + e == start + (a + (b + (c + (d + e))))
  {
    Assoc(((start + a) + b) + c, d, e);
    Assoc((start + a) + b, c, d + e);
    Assoc(start + a, b, c + (d + e));
    Assoc(start, a, b + (c + (d + e)));
  }

  /** `serialize_announcement_payload_v2` */
  method SerializeAnnouncementV2(a: Announcement) returns (payload: Option<seq<Byte>>)
    ensures payload == PayloadV2(a)
  {
    hide Be32, Be64, PayloadV1;
    if a.work.None? {
      return None;
    }
    var bytes := SerializeAnnouncement(a);
    if a.deadlineSecs.None? {
      return None;
    }
    var deadline, traffic, flops := Be32(a.deadlineSecs.value), Be64(a.work.value.trafficBytes), Be64(a.work.value.flops);
    Assoc(bytes + deadline, traffic, flops);
    Assoc(bytes, deadline, traffic + flops);
    bytes := bytes + deadline;
    bytes := bytes + traffic;
    bytes := bytes + flops;
    return Some(bytes);
  }

  datatype Counts = Counts(qubits: Word32, required: Word32, difficulty: Word32, votes: Word32, nonce: Word64)

  function TakePair(s: seq<Byte>): Taken<(Word32, Word32)> {
    match Take32(s)
    case Short => Short
    case Took(first, rest) =>
      match Take32(rest)
      case Short => Short
      case Took(second, after) => Took((first, second), after)
  }

  function TakeCounts(s: seq<Byte>): Taken<Counts> {
    match TakePair(s)
    case Short => Short
    case Took(front, rest) =>
      match TakePair(rest)
      case Short => Short
      case Took(back, after) =>
        match Take64(after)
        case Short => Short
        case Took(nonce, end) => Took(Counts(front.0, front.1, back.0, back.1, nonce), end)
  }

  function TakeWork(s: seq<Byte>): Taken<(Word32, SignedWork)> {
    match Take32(s)
    case Short => Short
    case Took(deadline, rest) =>
      match Take64(rest)
      case Short => Short
      case Took(traffic, after) =>
        match Take64(after)
        case Short => Short
        case Took(flops, end) => Took((deadline, SignedWork(traffic, flops)), end)
  }

  lemma TakePairOf(m: Word32, n: Word32, rest: seq<Byte>)
    ensures TakePair(Be32(m) + (Be32(n) + rest)) == Took((m, n), rest)
  {
    hide Be32, Take32;
    Take32Of(m, Be32(n) + rest);
    Take32Of(n, rest);
  }

  lemma TakeCountsOf(a: Announcement, rest: seq<Byte>)
    ensures TakeCounts(Numbers(a) + rest) == Took(Counts(a.qubits, a.required, a.difficulty, a.votes, a.nonce), rest)
  {
    hide Be32, Be64, Take64, TakePair;
    var last := Be64(a.nonce) + rest;
    Assoc(Be32(a.qubits), Be32(a.required) + (Be32(a.difficulty) + (Be32(a.votes) + Be64(a.nonce))), rest);
    Assoc(Be32(a.required), Be32(a.difficulty) + (Be32(a.votes) + Be64(a.nonce)), rest);
    Assoc(Be32(a.difficulty), Be32(a.votes) + Be64(a.nonce), rest);
    Assoc(Be32(a.votes), Be64(a.nonce), rest);
    TakePairOf(a.qubits, a.required, Be32(a.difficulty) + (Be32(a.votes) + last));
    TakePairOf(a.difficulty, a.votes, last);
    Take64Of(a.nonce, rest);
  }

  lemma TakeWorkOf(deadline: Word32, w: SignedWork)
    ensures TakeWork(WorkBytes(deadline, w)) == Took((deadline, w), [])
  {
    hide Be32, Be64, Take32, Take64;
    Take32Of(deadline, Be64(w.trafficBytes) + Be64(w.flops));
    Take64Of(w.trafficBytes, Be64(w.flops));
    NothingAdded(Be64(w.flops));
    Take64Of(w.flops, []);
  }

  /** Behind the task id the signed bytes decode, in this order, to every number and to the work. */
  lemma AnnouncementRoundTrip(a: Announcement)
    requires PayloadV2(a).Some?
    ensures PayloadV1(a) <= PayloadV2(a).value && Utf8(a.taskId) <= PayloadV1(a)
    ensures TakeCounts(PayloadV2(a).value[|Utf8(a.taskId)|..]) ==
              Took(Counts(a.qubits, a.required, a.difficulty, a.votes, a.nonce), WorkBytes(a.deadlineSecs.value, a.work.value))
    ensures TakeWork(WorkBytes(a.deadlineSecs.value, a.work.value)) == Took((a.deadlineSecs.value, a.work.value), [])
  {
    hide Utf8, Numbers, WorkBytes, TakeCounts, TakeWork;
    var id, work := Utf8(a.taskId), WorkBytes(a.deadlineSecs.value, a.work.value);
    Assoc(id, Numbers(a), work);
    Drop(id, Numbers(a) + work);
    TakeCountsOf(a, work);
    TakeWorkOf(a.deadlineSecs.value, a.work.value);
  }

  /** `verify_announcement_message`, for any signature check. */
  function Verify(m: Message, check: (seq<Byte>, string) -> bool): Result<(), Refusal> {
    var a := m.announcement;
    if AsksForWork(a) && (a.work.None? || a.deadlineSecs.None?) then
      Err(NoWork)
    else if a.work.Some? then
      match PayloadV2(a)
      case None => Err(NoDeadline)
      case Some(payload) =>
        if m.signatureV2.None? then Err(NotSigned)
        else if check(payload, m.signatureV2.value) then Ok(()) else Err(BadSignature)
    else
      if check(PayloadV1(a), m.signature) then Ok(()) else Err(BadSignature)
  }

  /**
   Accepted is exactly what its signature covers: with work, the v2 signature
   over a payload that has a deadline; without, the v1 signature and no bit 4.
   */
  lemma VerifiedExactly(m: Message, check: (seq<Byte>, string) -> bool)
    ensures var a := m.announcement;
      Verify(m, check).Ok? <==>
        if a.work.Some?
        then a.deadlineSecs.Some? && m.signatureV2.Some? && check(PayloadV1(a) + WorkBytes(a.deadlineSecs.value, a.work.value), m.signatureV2.value)
        else a.required / 16 % 2 == 0 && check(PayloadV1(a), m.signature)
  {
    assert Pow2(4) == 16;
    hide PayloadV1, WorkBytes;
  }

  /** Work is only ever taken from under the signature that covers it. */
  lemma VerifiedWorkIsSigned(m: Message, check: (seq<Byte>, string) -> bool)
    requires Verify(m, check).Ok?
    ensures AsksForWork(m.announcement) ==> m.announcement.work.Some?
    ensures m.announcement.work.Some? ==>
              && m.announcement.deadlineSecs.Some? && m.signatureV2.Some?
              && check(PayloadV2(m.announcement).value, m.signatureV2.value)
  {
  }

  lemma SplitBack(a: seq<Byte>, x: seq<Byte>, b: seq<Byte>, y: seq<Byte>)
    requires a + x == b + y && |x| == |y|
    ensures a == b && x == y
  {
    assert |a + x| == |b + y|;
    assert (a + x)[..|a|] == a && (b + y)[..|b|] == b;
    assert (a + x)[|a|..] == x && (b + y)[|b|..] == y;
  }

  lemma Be32Injective(m: Word32, n: Word32)
    requires Be32(m) == Be32(n)
    ensures m == n
  {
    Of32OfBe32(m);
    Of32OfBe32(n);
  }

  lemma Be64Injective(m: Word64, n: Word64)
    requires Be64(m) == Be64(n)
    ensures m == n
  {
    NothingAdded(Be64(m));
    NothingAdded(Be64(n));
    Take64Of(m, []);
    Take64Of(n, []);
  }

  lemma SplitFront(a: seq<Byte>, x: seq<Byte>, b: seq<Byte>, y: seq<Byte>)
    requires a + x == b + y && |a| == |b|
    ensures a == b && x == y
  {
    assert (a + x)[..|a|] == a && (b + y)[..|b|] == b;
    assert (a + x)[|a|..] == x && (b + y)[|b|..] == y;
  }

  lemma SplitThree(a: seq<Byte>, b: seq<Byte>, x: seq<Byte>, c: seq<Byte>, d: seq<Byte>, y: seq<Byte>)
    requires a + (b + x) == c + (d + y) && |a| == |c| && |b| == |d|
    ensures a == c && b == d && x == y
  {
    SplitFront(a, b + x, c, d + y);
    SplitFront(b, x, d, y);
  }

  lemma NumbersFix(a: Announcement, b: Announcement)
    requires Numbers(a) == Numbers(b)
    ensures a.qubits == b.qubits && a.required == b.required && a.difficulty == b.difficulty && a.votes == b.votes && a.nonce == b.nonce
  {
    hide Be32, Be64;
    var aLast, bLast := Be32(a.votes) + Be64(a.nonce), Be32(b.votes) + Be64(b.nonce);
    assert Be32(a.qubits) == Be32(b.qubits) && Be32(a.required) == Be32(b.required)
        && Be32(a.difficulty) + aLast == Be32(b.difficulty) + bLast by {
      SplitThree(Be32(a.qubits), Be32(a.required), Be32(a.difficulty) + aLast,
        Be32(b.qubits), Be32(b.required), Be32(b.difficulty) + bLast);
    }
    assert Be32(a.difficulty) == Be32(b.difficulty) && Be32(a.votes) == Be32(b.votes) && Be64(a.nonce) == Be64(b.nonce) by {
      SplitThree(Be32(a.difficulty), Be32(a.votes), Be64(a.nonce), Be32(b.difficulty), Be32(b.votes), Be64(b.nonce));
    }
    Be32Injective(a.qubits, b.qubits);
    Be32Injective(a.required, b.required);
    Be32Injective(a.difficulty, b.difficulty);
    Be32Injective(a.votes, b.votes);
    Be64Injective(a.nonce, b.nonce);
  }

  /** The task id is the only field without a fixed width, so the v1 payload fixes every v1 field. */
  lemma PayloadV1Fixes(a: Announcement, b: Announcement)
    requires PayloadV1(a) == PayloadV1(b)
    ensures a.(deadlineSecs := None, work := None) == b.(deadlineSecs := None, work := None)
  {
    hide Utf8, Numbers;
    NumbersLength(a);
    NumbersLength(b);
    SplitBack(Utf8(a.taskId), Numbers(a), Utf8(b.taskId), Numbers(b));
    Utf8Injective(a.taskId, b.taskId);
    NumbersFix(a, b);
  }

  lemma NumbersLength(a: Announcement)
    ensures |Numbers(a)| == 24
  {
    hide Be32, Be64;
  }

  lemma WorkFixes(d: Word32, w: SignedWork, e: Word32, v: SignedWork)
    requires WorkBytes(d, w) == WorkBytes(e, v)
    ensures d == e && w == v
  {
    hide Be32, Be64;
    SplitFront(Be32(d), Be64(w.trafficBytes) + Be64(w.flops), Be32(e), Be64(v.trafficBytes) + Be64(v.flops));
    SplitFront(Be64(w.trafficBytes), Be64(w.flops), Be64(v.trafficBytes), Be64(v.flops));
    Be32Injective(d, e);
    Be64Injective(w.trafficBytes, v.trafficBytes);
    Be64Injective(w.flops, v.flops);
  }

  /** A v2 signature covers one announcement only: work, deadline and every v1 field. */
  lemma PayloadV2Fixes(a: Announcement, b: Announcement)
    requires PayloadV2(a).Some? && PayloadV2(a) == PayloadV2(b)
    ensures a == b
  {
    hide PayloadV1, WorkBytes;
    WorkLength(a.deadlineSecs.value, a.work.value);
    WorkLength(b.deadlineSecs.value, b.work.value);
    SplitBack(PayloadV1(a), WorkBytes(a.deadlineSecs.value, a.work.value), PayloadV1(b), WorkBytes(b.deadlineSecs.value, b.work.value));
    WorkFixes(a.deadlineSecs.value, a.work.value, b.deadlineSecs.value, b.work.value);
    PayloadV1Fixes(a, b);
    assert a == a.(deadlineSecs := None, work := None).(deadlineSecs := a.deadlineSecs, work := a.work);
    assert b == b.(deadlineSecs := None, work := None).(deadlineSecs := b.deadlineSecs, work := b.work);
  }

  lemma WorkLength(d: Word32, w: SignedWork)
    ensures |WorkBytes(d, w)| == 20
  {
    hide Be32, Be64;
  }

  // ---------------------------------------------------------------------
  // Bidding
  // ---------------------------------------------------------------------

  const NETWORK_MIN_QUBITS: nat := 10
  const MAX_ATTEMPTS: nat := 3

  datatype Config = Config(maxQubits: Word32, gates: seq<string>, rates: Option<Rates>,
                           overheadSecs: real, margin: real, ownTimeoutSecs: nat, unknownSecs: real)

  predicate ShouldBidOn(a: Announcement, cfg: Config, supported: Mask) {
    cfg.maxQubits >= NETWORK_MIN_QUBITS && supported != {} && Supports(supported, BitsOf(a.required))
  }

  function PolicyOf(cfg: Config): Policy
    requires cfg.rates.Some?
  {
    Policy(cfg.rates.value, cfg.overheadSecs, cfg.margin, cfg.ownTimeoutSecs, cfg.unknownSecs)
  }

  function WorkOf(w: SignedWork): Work {
    Work(w.trafficBytes, w.flops)
  }

  predicate Judged(a: Announcement, cfg: Config) {
    a.work.Some? && cfg.rates.Some?
  }

  function DeadlineOf(a: Announcement): nat {
    if a.deadlineSecs.Some? then a.deadlineSecs.value else 0
  }

  ghost function DecisionOn(s: State, a: Announcement, cfg: Config, now: real): Result<Budget, real>
    requires Judged(a, cfg)
  {
    DecisionOf(s, WorkOf(a.work.value), DeadlineOf(a), PolicyOf(cfg), now)
  }

  /** Whether the node gets as far as sending. */
  ghost predicate Willing(s: State, a: Announcement, cfg: Config, now: real) {
    && ShouldBidOn(a, cfg, NodeFeatures(cfg.gates, cfg.rates.Some?))
    && (Judged(a, cfg) ==> DecisionOn(s, a, cfg, now).Ok?)
  }

  ghost function LedgerAfter(s: State, a: Announcement, cfg: Config, now: real): State {
    if ShouldBidOn(a, cfg, NodeFeatures(cfg.gates, cfg.rates.Some?)) && Judged(a, cfg)
    then AfterDecide(s, a.taskId, WorkOf(a.work.value), DeadlineOf(a), PolicyOf(cfg), now)
    else s
  }

  datatype BidOutcome = Skipped | NotMined | Sent(attempt: nat) | Failed

  /** What each attempt would be answered: the first acknowledged one wins. */
  method SendBid(acks: seq<bool>) returns (outcome: BidOutcome)
    requires |acks| == 3
    ensures outcome.Sent? ==> outcome.attempt < 3 && acks[outcome.attempt] && forall i :: 0 <= i < outcome.attempt ==> !acks[i]
    ensures outcome == Failed || outcome.Sent?
    ensures outcome == Failed <==> !acks[0] && !acks[1] && !acks[2]
  {
    for attempt := 0 to MAX_ATTEMPTS
      invariant forall i :: 0 <= i < attempt ==> !acks[i]
    {
      if acks[attempt] {
        return Sent(attempt);
      }
    }
    return Failed;
  }

  method SubmitBid(ledger: WorkLedger, a: Announcement, cfg: Config, now: real, mined: bool, acks: seq<bool>) returns (outcome: BidOutcome)
    requires |acks| == 3
    modifies ledger
    ensures ledger.Contents() == LedgerAfter(old(ledger.Contents()), a, cfg, now)
    ensures outcome == Skipped <==> !Willing(old(ledger.Contents()), a, cfg, now)
    ensures outcome.Sent? <==> Willing(old(ledger.Contents()), a, cfg, now) && mined && (acks[0] || acks[1] || acks[2])
  {
    hide GateFeatures, ShouldBidOn, DecisionOf, AfterDecide;
    var gateFeatures := FeaturesFromGates(cfg.gates);
    var supported := if cfg.rates.Some? then gateFeatures + {WORK_BUDGET} else gateFeatures;
    if !ShouldBidOn(a, cfg, supported) {
      return Skipped;
    }
    if a.work.Some? && cfg.rates.Some? {
      var decision := ledger.Decide(a.taskId, WorkOf(a.work.value), DeadlineOf(a), PolicyOf(cfg), now);
      if decision.Err? {
        return Skipped;
      }
    }
    if !mined {
      return NotMined;
    }
    outcome := SendBid(acks);
  }

  /** The bits the node offers: two kinds of gates, gate halves, and judging work. */
  predicate Offers(cfg: Config, bit: nat) {
    || (bit == 0 && exists g :: g in cfg.gates && g in {"H", "X", "Y", "Z", "S", "T", "CNOT", "CZ", "CCNOT"})
    || (bit == 1 && exists g :: g in cfg.gates && g in {"RX", "RY", "RZ"})
    || (bit == 3 && "NETWORK_GATE_SPLIT" in cfg.gates)
    || (bit == 4 && cfg.rates.Some?)
  }

  lemma GateGivesBit(gate: string, bit: nat)
    ensures bit in GateFeature(gate) <==>
      || (bit == 0 && gate in {"H", "X", "Y", "Z", "S", "T", "CNOT", "CZ", "CCNOT"})
      || (bit == 1 && gate in {"RX", "RY", "RZ"})
      || (bit == 3 && gate == "NETWORK_GATE_SPLIT")
  {
  }

  lemma FeaturesAreOffers(cfg: Config, bit: nat)
    ensures bit in NodeFeatures(cfg.gates, cfg.rates.Some?) <==> Offers(cfg, bit)
  {
    hide GateFeature;
    forall g | g in cfg.gates
      ensures bit in GateFeature(g) <==>
        || (bit == 0 && g in {"H", "X", "Y", "Z", "S", "T", "CNOT", "CZ", "CCNOT"})
        || (bit == 1 && g in {"RX", "RY", "RZ"})
        || (bit == 3 && g == "NETWORK_GATE_SPLIT")
    {
      GateGivesBit(g, bit);
    }
  }

  /** The node passes on nothing it does not offer, and needs ten qubits and something to offer. */
  lemma FitExactly(a: Announcement, cfg: Config)
    ensures ShouldBidOn(a, cfg, NodeFeatures(cfg.gates, cfg.rates.Some?)) <==>
      && cfg.maxQubits >= 10
      && (exists bit :: Offers(cfg, bit))
      && (forall bit: nat :: bit < 32 && a.required / Pow2(bit) % 2 == 1 ==> Offers(cfg, bit))
  {
    var supported, required := NodeFeatures(cfg.gates, cfg.rates.Some?), BitsOf(a.required);
    forall bit: nat ensures bit in supported <==> Offers(cfg, bit) {
      FeaturesAreOffers(cfg, bit);
    }
    hide NodeFeatures, Offers, Pow2;
    SupportsEach(supported, required);
    assert supported != {} ==> exists bit :: bit in supported;
  }

  lemma SupportsEach(supported: Mask, required: Mask)
    ensures Supports(supported, required) <==> forall bit :: bit in required ==> bit in supported
  {
    if Supports(supported, required) {
      forall bit | bit in required ensures bit in supported {
        assert bit in supported * required;
      }
    }
  }

  /**
   The node gets as far as sending exactly if it has ten qubits, offers every
   required bit and at least one, and, where it judges the announced work, the
   queue with every announced byte and flop at its own rates and the overhead
   stays within the margin of its timeout and of the announced deadline.
   */
  lemma WillingExactly(s: State, a: Announcement, cfg: Config, now: real)
    requires 0.0 < cfg.margin <= 1.0
    ensures Willing(s, a, cfg, now) <==>
      && cfg.maxQubits >= 10
      && (exists bit :: Offers(cfg, bit))
      && (forall bit: nat :: bit < 32 && a.required / Pow2(bit) % 2 == 1 ==> Offers(cfg, bit))
      && (a.work.Some? && cfg.rates.Some? ==>
            var bytes := a.work.value.trafficBytes as real * cfg.rates.value.secondsPerByte;
            var flops := a.work.value.flops as real * cfg.rates.value.secondsPerFlop;
            var total := QueuedSecs(s, now, cfg.unknownSecs) + (bytes + flops + cfg.overheadSecs);
            var deadlineSecs := match a.deadlineSecs case None => 0 case Some(d) => d;
            total <= cfg.margin * cfg.ownTimeoutSecs as real && total <= cfg.margin * deadlineSecs as real)
  {
    FitExactly(a, cfg);
    hide ShouldBidOn, NodeFeatures, Offers, Pow2, QueuedSecs, DecisionOf;
    if Judged(a, cfg) {
      AdmittedExactly(s, WorkOf(a.work.value), DeadlineOf(a), PolicyOf(cfg), now);
    }
  }

  /**
   Work that is announced under bit 4 is only bid on after the ledger has
   admitted it, and its reservation is then on record.
   */
  lemma WorkIsBidOnOnlyIfAdmitted(s: State, a: Announcement, cfg: Config, now: real)
    requires AsksForWork(a) && a.work.Some? && Willing(s, a, cfg, now)
    ensures Judged(a, cfg)
    ensures DecisionOn(s, a, cfg, now).Ok?
    ensures var after := LedgerAfter(s, a, cfg, now);
      && a.taskId in after.reserved
      && after.reserved[a.taskId].until == now + RESERVATION_TTL
      && BudgetOf(after, a.taskId) == Some(DecisionOn(s, a, cfg, now).value)
  {
    WorkBitNeedsRates(cfg.gates, cfg.rates.Some?, BitsOf(a.required));
    hide QueuedSecs, OwnSecs, Limit, GateFeatures;
  }

  /** A verified announcement can only make the node bid on work that its ledger has admitted. */
  lemma VerifiedWorkIsBidOnOnlyIfAdmitted(m: Message, check: (seq<Byte>, string) -> bool, s: State, cfg: Config, now: real)
    requires Verify(m, check).Ok?
    ensures AsksForWork(m.announcement) && Willing(s, m.announcement, cfg, now) ==>
              && Judged(m.announcement, cfg) && DecisionOn(s, m.announcement, cfg, now).Ok?
              && check(PayloadV2(m.announcement).value, m.signatureV2.value)
  {
    VerifiedWorkIsSigned(m, check);
    if AsksForWork(m.announcement) && Willing(s, m.announcement, cfg, now) {
      WorkIsBidOnOnlyIfAdmitted(s, m.announcement, cfg, now);
    }
  }
}

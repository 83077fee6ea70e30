/** The dispatch payload (src/domain/p2p.rs, `serialize_dispatch_payload`) and its decoding. */
module DispatchPayload {
  import opened Wrappers
  import opened Bytes
  import opened Words
  import opened Decimals
  import opened Json
  import opened GoJson
  import opened Observables

  datatype Assignment = Assignment(edgeId: string, value: Byte)

  /** The signed fields of a sub-task; `tree` is the tree's own JSON text. */
  datatype SubTask = SubTask(
    taskId: string, parentTaskId: string, circuitId: string, sliceId: string,
    qubitCount: Word32, originalQubitCount: Word32, requiredVotes: Word32,
    assignments: seq<Assignment>,
    circuit: seq<Gate>, maxBondDim: Word32, outputMode: string,
    shots: Word64, classicalBitCount: Word32, sampleSeed: Word64,
    observables: seq<Observable>, siteOrder: seq<Word32>, securityLevel: string,
    timeSplit: Word32, tree: Option<string>)

  // ---------------------------------------------------------------------
  // Layout
  // ---------------------------------------------------------------------

  function AssignmentBytes(assignments: seq<Assignment>): seq<Byte> {
    if assignments == [] then
      []
    else
      Utf8(assignments[0].edgeId) + ([assignments[0].value] + AssignmentBytes(assignments[1..]))
  }

  function SiteBytes(sites: seq<Word32>): seq<Byte> {
    if sites == [] then [] else Be32(sites[0]) + SiteBytes(sites[1..])
  }

  /** Ids, counts and slice assignments: the part without length prefixes. */
  function Head(t: SubTask): seq<Byte> {
    Utf8(t.taskId) + Utf8(t.parentTaskId) + Utf8(t.circuitId) + Utf8(t.sliceId)
    + Be32(t.qubitCount) + Be32(t.originalQubitCount) + Be32(t.requiredVotes)
    + Length(|t.assignments|) + AssignmentBytes(t.assignments)
  }

  /** The fields from the circuit length on, as bytes. */
  datatype Body = Body(
    circuit: seq<Byte>, maxBondDim: Word32, outputMode: seq<Byte>,
    shots: Word64, classicalBitCount: Word32, sampleSeed: Word64,
    observables: seq<Byte>, siteOrder: seq<Word32>, securityLevel: seq<Byte>)

  datatype Suffix = Suffix(timeSplit: Word32, tree: Option<seq<Byte>>)

  function SuffixBytes(s: Suffix): seq<Byte> {
    (if s.timeSplit != 0 then Be32(s.timeSplit) else []) + (if s.tree.Some? then Field(s.tree.value) else [])
  }

  function BodyBytes(b: Body, end: seq<Byte>): seq<Byte> {
    Field(b.circuit) + (Be32(b.maxBondDim) + (Field(b.outputMode) + NumberBytes(b, end)))
  }

  function NumberBytes(b: Body, end: seq<Byte>): seq<Byte> {
    Be64(b.shots) + (Be32(b.classicalBitCount) + (Be64(b.sampleSeed) + LastBytes(b, end)))
  }

  function LastBytes(b: Body, end: seq<Byte>): seq<Byte> {
    Field(b.observables) + (Length(|b.siteOrder|) + (SiteBytes(b.siteOrder) + (Field(b.securityLevel) + end)))
  }

  function BodyOf(t: SubTask): Body
    requires FirstNotFloatGate(t.circuit).None?
  {
    Body(Utf8(CircuitText(t.circuit)), t.maxBondDim, Utf8(t.outputMode),
      t.shots, t.classicalBitCount, t.sampleSeed,
      Utf8(ObservablesText(t.observables)), t.siteOrder, Utf8(t.securityLevel))
  }

  function SuffixOf(t: SubTask): Suffix {
    Suffix(t.timeSplit, match t.tree case None => None case Some(text) => Some(Utf8(text)))
  }

  function Payload(t: SubTask): seq<Byte>
    requires FirstNotFloatGate(t.circuit).None?
  {
    Head(t) + BodyBytes(BodyOf(t), SuffixBytes(SuffixOf(t)))
  }

  method SerializeDispatchPayload(t: SubTask) returns (written: Result<seq<Byte>, JsonNumber>)
    ensures written == match FirstNotFloatGate(t.circuit)
                       case Some(n) => Err(n)
                       case None => Ok(Payload(t))
  {
    hide Be32, Be64, Length, SiteBytes, Utf8, Head, ObservablesText, CircuitText;
    var head := WriteHead(t);
    var circuitJson := CircuitSigningJson(t.circuit);
    if circuitJson.Err? {
      return Err(circuitJson.error);
    }
    var payload := WriteField(head, Utf8(circuitJson.value));
    payload := payload + Be32(t.maxBondDim);
    payload := WriteField(payload, Utf8(t.outputMode));
    ghost var beforeNumbers := payload;
    payload := payload + Be64(t.shots);
    payload := payload + Be32(t.classicalBitCount);
    payload := payload + Be64(t.sampleSeed);
    ghost var beforeLast := payload;
    var observablesJson := FormatObservablesWireJson(t.observables);
    payload := WriteField(payload, Utf8(observablesJson));
    payload := payload + Length(|t.siteOrder|);
    payload := WriteSites(payload, t.siteOrder);
    payload := WriteField(payload, Utf8(t.securityLevel));
    ghost var beforeSuffix := payload;
    if t.timeSplit != 0 {
      payload := payload + Be32(t.timeSplit);
    }
    if t.tree.Some? {
      payload := WriteField(payload, Utf8(t.tree.value));
    }
    Regroup(t, head, beforeNumbers, beforeLast, beforeSuffix, payload);
    return Ok(payload);
  }

  /** Appending piece by piece gives the right-nested layout. */
  lemma Regroup(t: SubTask, head: seq<Byte>, beforeNumbers: seq<Byte>, beforeLast: seq<Byte>, beforeSuffix: seq<Byte>, payload: seq<Byte>)
    requires FirstNotFloatGate(t.circuit).None?
    requires head == Head(t)
    requires beforeNumbers == ((head + Field(BodyOf(t).circuit)) + Be32(t.maxBondDim)) + Field(BodyOf(t).outputMode)
    requires beforeLast == ((beforeNumbers + Be64(t.shots)) + Be32(t.classicalBitCount)) + Be64(t.sampleSeed)
    requires beforeSuffix == (((beforeLast + Field(BodyOf(t).observables)) + Length(|t.siteOrder|)) + SiteBytes(t.siteOrder)) + Field(BodyOf(t).securityLevel)
    requires var s := SuffixOf(t);
             payload == (beforeSuffix + (if s.timeSplit != 0 then Be32(s.timeSplit) else [])) + (if s.tree.Some? then Field(s.tree.value) else [])
    ensures payload == Payload(t)
  {
    hide Head, Field, Be32, Be64, Length, SiteBytes, BodyOf, FirstNotFloatGate;
    var b, s := BodyOf(t), SuffixOf(t);
    var end := SuffixBytes(s);
    Assoc(beforeSuffix, if s.timeSplit != 0 then Be32(s.timeSplit) else [], if s.tree.Some? then Field(s.tree.value) else []);
    BodyIsOf(t);
    Nest4(beforeLast, Field(b.observables), Length(|b.siteOrder|), SiteBytes(b.siteOrder), Field(b.securityLevel), end);
    Nest3(beforeNumbers, Be64(b.shots), Be32(b.classicalBitCount), Be64(b.sampleSeed), LastBytes(b, end));
    Nest3(head, Field(b.circuit), Be32(b.maxBondDim), Field(b.outputMode), NumberBytes(b, end));
  }

  lemma BodyIsOf(t: SubTask)
    requires FirstNotFloatGate(t.circuit).None?
    ensures var b := BodyOf(t);
      && b.maxBondDim == t.maxBondDim && b.shots == t.shots && b.classicalBitCount == t.classicalBitCount
      && b.sampleSeed == t.sampleSeed && b.siteOrder == t.siteOrder
  {
  }

  lemma Nest3(start: seq<Byte>, a: seq<Byte>, b: seq<Byte>, c: seq<Byte>, end: seq<Byte>)
    ensures (((start + a) + b) + c) + end == start + (a + (b + (c + end)))
  {
    Assoc((start + a) + b, c, end);
    Assoc(start + a, b, c + end);
    Assoc(start, a, b + (c + end));
  }

  lemma Nest4(start: seq<Byte>, a: seq<Byte>, b: seq<Byte>, c: seq<Byte>, d: seq<Byte>, end: seq<Byte>)
    ensures ((((start + a) + b) + c) + d) + end == start + (a + (b + (c + (d + end))))
  {
    Assoc(((start + a) + b) + c, d, end);
    Nest3(start, a, b, c, d + end);
  }

  method WriteHead(t: SubTask) returns (payload: seq<Byte>)
    ensures payload == Head(t)
  {
    payload := Utf8(t.taskId);
    payload := payload + Utf8(t.parentTaskId);
    payload := payload + Utf8(t.circuitId);
    payload := payload + Utf8(t.sliceId);
    payload := payload + Be32(t.qubitCount);
    payload := payload + Be32(t.originalQubitCount);
    payload := payload + Be32(t.requiredVotes);
    payload := payload + Length(|t.assignments|);
    payload := WriteAssignments(payload, t.assignments);
  }

  method WriteAssignments(before: seq<Byte>, assignments: seq<Assignment>) returns (payload: seq<Byte>)
    ensures payload == before + AssignmentBytes(assignments)
  {
    payload := before;
    for i := 0 to |assignments|
      invariant payload + AssignmentBytes(assignments[i..]) == before + AssignmentBytes(assignments)
    {
      var a := assignments[i];
      assert assignments[i..][1..] == assignments[i + 1..];
      var rest := AssignmentBytes(assignments[i + 1..]);
      Assoc(payload, Utf8(a.edgeId), [a.value] + rest);
      Assoc(payload + Utf8(a.edgeId), [a.value], rest);
      payload := payload + Utf8(a.edgeId);
      payload := payload + [a.value];
    }
    NothingAdded(payload);
  }

  method WriteSites(before: seq<Byte>, sites: seq<Word32>) returns (payload: seq<Byte>)
    ensures payload == before + SiteBytes(sites)
  {
    payload := before;
    for i := 0 to |sites|
      invariant payload + SiteBytes(sites[i..]) == before + SiteBytes(sites)
    {
      assert sites[i..][1..] == sites[i + 1..];
      Assoc(payload, Be32(sites[i]), SiteBytes(sites[i + 1..]));
      payload := payload + Be32(sites[i]);
    }
    NothingAdded(payload);
  }

  method WriteField(before: seq<Byte>, bytes: seq<Byte>) returns (payload: seq<Byte>)
    ensures payload == before + Field(bytes)
  {
    Assoc(before, Length(|bytes|), bytes);
    payload := before + Length(|bytes|);
    payload := payload + bytes;
  }

  // ---------------------------------------------------------------------
  // Decoding from the circuit length on
  // ---------------------------------------------------------------------

  /** The first byte of every tree text: an opening brace. */
  const BRACE: Byte := 0x7B

  function TakeSites(s: seq<Byte>, n: nat): Taken<seq<Word32>> {
    if n == 0 then
      Took([], s)
    else
      match Take32(s)
      case Short => Short
      case Took(first, rest) =>
        match TakeSites(rest, n - 1)
        case Short => Short
        case Took(others, after) => Took([first] + others, after)
  }

  function TakeSiteList(s: seq<Byte>): Taken<seq<Word32>> {
    match Take32(s)
    case Short => Short
    case Took(n, rest) => TakeSites(rest, n)
  }

  /** Everything left must be one field. */
  function OnlyField(s: seq<Byte>): Option<seq<Byte>> {
    match TakeField(s)
    case Short => None
    case Took(bytes, rest) => if rest == [] then Some(bytes) else None
  }

  /**
   What follows the security level. A split alone is four bytes; a tree alone
   shows an opening brace as its fifth byte; after a split, the fifth byte is
   the top byte of the tree's length.
   */
  function DecodeSuffix(s: seq<Byte>): Option<Suffix> {
    if s == [] then
      Some(Suffix(0, None))
    else if |s| == 4 then
      Some(Suffix(Of32(s), None))
    else if |s| > 4 && s[4] == BRACE then
      match OnlyField(s) {
        case None => None
        case Some(tree) => Some(Suffix(0, Some(tree)))
      }
    else if |s| > 4 then
      match OnlyField(s[4..]) {
        case None => None
        case Some(tree) => Some(Suffix(Of32(s[..4]), Some(tree)))
      }
    else
      None
  }

  datatype Texts = Texts(circuit: seq<Byte>, maxBondDim: Word32, outputMode: seq<Byte>)

  datatype Numbers = Numbers(shots: Word64, classicalBitCount: Word32, sampleSeed: Word64)

  datatype Lists = Lists(observables: seq<Byte>, siteOrder: seq<Word32>, securityLevel: seq<Byte>)

  function TakeTexts(s: seq<Byte>): Taken<Texts> {
    match TakeField(s)
    case Short => Short
    case Took(circuit, s1) =>
      match Take32(s1)
      case Short => Short
      case Took(maxBondDim, s2) =>
        match TakeField(s2)
        case Short => Short
        case Took(outputMode, s3) => Took(Texts(circuit, maxBondDim, outputMode), s3)
  }

  function TakeNumbers(s: seq<Byte>): Taken<Numbers> {
    match Take64(s)
    case Short => Short
    case Took(shots, s1) =>
      match Take32(s1)
      case Short => Short
      case Took(bits, s2) =>
        match Take64(s2)
        case Short => Short
        case Took(seed, s3) => Took(Numbers(shots, bits, seed), s3)
  }

  function TakeLists(s: seq<Byte>): Taken<Lists> {
    match TakeField(s)
    case Short => Short
    case Took(observables, s1) =>
      match TakeSiteList(s1)
      case Short => Short
      case Took(sites, s2) =>
        match TakeField(s2)
        case Short => Short
        case Took(security, s3) => Took(Lists(observables, sites, security), s3)
  }

  function Decode(s: seq<Byte>): Option<(Body, Suffix)> {
    match TakeTexts(s)
    case Short => None
    case Took(t, s1) =>
      match TakeNumbers(s1)
      case Short => None
      case Took(n, s2) =>
        match TakeLists(s2)
        case Short => None
        case Took(l, s3) =>
          match DecodeSuffix(s3)
          case None => None
          case Some(suffix) =>
            Some((Body(t.circuit, t.maxBondDim, t.outputMode, n.shots, n.classicalBitCount, n.sampleSeed,
                       l.observables, l.siteOrder, l.securityLevel), suffix))
  }

  /** Every length fits its 32-bit prefix. */
  predicate Fits(b: Body) {
    && |b.circuit| < 0x1_0000_0000 && |b.outputMode| < 0x1_0000_0000 && |b.observables| < 0x1_0000_0000
    && |b.siteOrder| < 0x1_0000_0000 && |b.securityLevel| < 0x1_0000_0000
  }

  /** A tree text opens with a brace and is shorter than 0x7B000000 bytes. */
  predicate GoodSuffix(s: Suffix) {
    s.tree.Some? ==> s.tree.value != [] && s.tree.value[0] == BRACE && |s.tree.value| < 0x7B00_0000
  }

  lemma {:induction false} TakeSitesOf(sites: seq<Word32>, rest: seq<Byte>)
    ensures TakeSites(SiteBytes(sites) + rest, |sites|) == Took(sites, rest)
    decreases |sites|
  {
    hide Take32, Be32;
    if sites == [] {
      NothingAdded(rest);
    } else {
      TakeSitesOf(sites[1..], rest);
      Assoc(Be32(sites[0]), SiteBytes(sites[1..]), rest);
      Take32Of(sites[0], SiteBytes(sites[1..]) + rest);
      assert [sites[0]] + sites[1..] == sites;
    }
  }

  lemma OnlyFieldOf(bytes: seq<Byte>)
    requires |bytes| < 0x1_0000_0000
    ensures OnlyField(Field(bytes)) == Some(bytes)
  {
    hide TakeField, Field;
    NothingAdded(Field(bytes));
    TakeFieldOf(bytes, []);
  }

  lemma TopByte(n: Word32)
    requires n < 0x7B00_0000
    ensures Be32(n)[0] < BRACE
  {
  }

  lemma FieldStarts(bytes: seq<Byte>)
    requires |bytes| < 0x7B00_0000
    ensures |Field(bytes)| == 4 + |bytes|
    ensures Field(bytes)[0] < BRACE
    ensures bytes != [] ==> Field(bytes)[4] == bytes[0]
  {
    TopByte(|bytes|);
    hide Be32;
  }

  lemma SuffixRoundTrip(s: Suffix)
    requires GoodSuffix(s)
    ensures DecodeSuffix(SuffixBytes(s)) == Some(s)
  {
    hide Be32, Of32, Field, OnlyField;
    Of32OfBe32(s.timeSplit);
    NothingAdded(Be32(s.timeSplit));
    if s.tree.Some? {
      var field := Field(s.tree.value);
      NothingAdded(field);
      OnlyFieldOf(s.tree.value);
      FieldStarts(s.tree.value);
      Drop(Be32(s.timeSplit), field);
    }
  }

  lemma TextsRoundTrip(b: Body, end: seq<Byte>)
    requires Fits(b)
    ensures TakeTexts(BodyBytes(b, end)) == Took(Texts(b.circuit, b.maxBondDim, b.outputMode), NumberBytes(b, end))
  {
    hide TakeField, Take32, Field, Be32, NumberBytes;
    var s2 := Field(b.outputMode) + NumberBytes(b, end);
    TakeFieldOf(b.circuit, Be32(b.maxBondDim) + s2);
    Take32Of(b.maxBondDim, s2);
    TakeFieldOf(b.outputMode, NumberBytes(b, end));
  }

  lemma NumbersRoundTrip(b: Body, end: seq<Byte>)
    ensures TakeNumbers(NumberBytes(b, end)) == Took(Numbers(b.shots, b.classicalBitCount, b.sampleSeed), LastBytes(b, end))
  {
    hide Take64, Take32, Be64, Be32, LastBytes;
    var s2 := Be64(b.sampleSeed) + LastBytes(b, end);
    Take64Of(b.shots, Be32(b.classicalBitCount) + s2);
    Take32Of(b.classicalBitCount, s2);
    Take64Of(b.sampleSeed, LastBytes(b, end));
  }

  lemma ListsRoundTrip(b: Body, end: seq<Byte>)
    requires Fits(b)
    ensures TakeLists(LastBytes(b, end)) == Took(Lists(b.observables, b.siteOrder, b.securityLevel), end)
  {
    hide TakeField, Take32, Field, Be32, SiteBytes, TakeSites;
    var s2 := Field(b.securityLevel) + end;
    TakeFieldOf(b.observables, Length(|b.siteOrder|) + (SiteBytes(b.siteOrder) + s2));
    Take32Of(|b.siteOrder|, SiteBytes(b.siteOrder) + s2);
    TakeSitesOf(b.siteOrder, s2);
    TakeFieldOf(b.securityLevel, end);
  }

  /** From the circuit length on, the payload decodes back to every field it was made of. */
  lemma PayloadRoundTrip(b: Body, s: Suffix)
    requires Fits(b) && GoodSuffix(s)
    ensures Decode(BodyBytes(b, SuffixBytes(s))) == Some((b, s))
  {
    hide TakeTexts, TakeNumbers, TakeLists, DecodeSuffix, BodyBytes, NumberBytes, LastBytes, SuffixBytes;
    var end := SuffixBytes(s);
    TextsRoundTrip(b, end);
    NumbersRoundTrip(b, end);
    ListsRoundTrip(b, end);
    SuffixRoundTrip(s);
  }

  // ---------------------------------------------------------------------
  // What a signature over the payload fixes
  // ---------------------------------------------------------------------

  lemma AppendEnd(b: Body, end: seq<Byte>)
    ensures BodyBytes(b, end) == BodyBytes(b, []) + end
  {
    hide Field, Be32, Be64, Length, SiteBytes;
    NothingAdded(Field(b.securityLevel));
    var last := LastBytes(b, []);
    Inside4(Field(b.observables), Length(|b.siteOrder|), SiteBytes(b.siteOrder), Field(b.securityLevel), end);
    Inside3(Be64(b.shots), Be32(b.classicalBitCount), Be64(b.sampleSeed), last, end);
    Inside3(Field(b.circuit), Be32(b.maxBondDim), Field(b.outputMode), NumberBytes(b, []), end);
  }

  lemma Inside3(a: seq<Byte>, b: seq<Byte>, c: seq<Byte>, d: seq<Byte>, end: seq<Byte>)
    ensures (a + (b + (c + d))) + end == a + (b + (c + (d + end)))
  {
    Assoc(a, b + (c + d), end);
    Assoc(b, c + d, end);
    Assoc(c, d, end);
  }

  lemma Inside4(a: seq<Byte>, b: seq<Byte>, c: seq<Byte>, d: seq<Byte>, end: seq<Byte>)
    ensures (a + (b + (c + d))) + end == a + (b + (c + (d + end)))
  {
    Inside3(a, b, c, d, end);
  }

  /** Without a split and a tree the payload is the same as before they existed, cut short. */
  lemma PlainPayloadIsPrefix(t: SubTask)
    requires FirstNotFloatGate(t.circuit).None?
    ensures Payload(t.(timeSplit := 0, tree := None)) <= Payload(t)
  {
    hide Head, BodyBytes, FirstNotFloatGate, SuffixBytes;
    var plain := t.(timeSplit := 0, tree := None);
    PlainSuffix(t);
    var end := SuffixBytes(SuffixOf(t));
    AppendEnd(BodyOf(t), end);
    Assoc(Head(t), BodyBytes(BodyOf(t), []), end);
  }

  lemma PlainSuffix(t: SubTask)
    requires FirstNotFloatGate(t.circuit).None?
    ensures var plain := t.(timeSplit := 0, tree := None);
      && FirstNotFloatGate(plain.circuit).None?
      && Head(plain) == Head(t) && BodyOf(plain) == BodyOf(t) && SuffixBytes(SuffixOf(plain)) == []
  {
    hide FirstNotFloatGate;
  }

  /** The premises of decoding, on a sub-task. */
  predicate Encodable(t: SubTask) {
    && FirstNotFloatGate(t.circuit).None?
    && Fits(BodyOf(t))
    && GoodSuffix(SuffixOf(t))
  }

  lemma SameFieldsFromBytes(a: SubTask, b: SubTask)
    requires FirstNotFloatGate(a.circuit).None? && FirstNotFloatGate(b.circuit).None?
    requires BodyOf(a) == BodyOf(b) && SuffixOf(a) == SuffixOf(b)
    ensures DenoteCircuit(a.circuit) == DenoteCircuit(b.circuit)
    ensures ObservablesText(a.observables) == ObservablesText(b.observables)
    ensures a.outputMode == b.outputMode && a.securityLevel == b.securityLevel && a.tree == b.tree
  {
    hide Utf8, CircuitText, DenoteCircuit, ObservablesText, FirstNotFloatGate;
    Utf8Injective(CircuitText(a.circuit), CircuitText(b.circuit));
    CircuitTextCanonical(a.circuit, b.circuit);
    Utf8Injective(ObservablesText(a.observables), ObservablesText(b.observables));
    Utf8Injective(a.outputMode, b.outputMode);
    Utf8Injective(a.securityLevel, b.securityLevel);
    if a.tree.Some? {
      Utf8Injective(a.tree.value, b.tree.value);
    }
  }

  /**
   Two sub-tasks that agree up to the slice assignments and sign to the same
   bytes are the same work: same circuit as float64, same numbers, same tree.
   */
  lemma SamePayloadSameWork(a: SubTask, b: SubTask)
    requires Encodable(a) && Encodable(b)
    requires Head(a) == Head(b) && Payload(a) == Payload(b)
    ensures DenoteCircuit(a.circuit) == DenoteCircuit(b.circuit)
    ensures ObservablesText(a.observables) == ObservablesText(b.observables)
    ensures a.outputMode == b.outputMode && a.securityLevel == b.securityLevel
    ensures a.maxBondDim == b.maxBondDim && a.siteOrder == b.siteOrder
    ensures a.shots == b.shots && a.classicalBitCount == b.classicalBitCount && a.sampleSeed == b.sampleSeed
    ensures a.timeSplit == b.timeSplit && a.tree == b.tree
  {
    hide Head, BodyBytes, SuffixBytes, DenoteCircuit, ObservablesText, CircuitText, Decode, FirstNotFloatGate, Fits, GoodSuffix;
    Drop(Head(a), BodyBytes(BodyOf(a), SuffixBytes(SuffixOf(a))));
    Drop(Head(b), BodyBytes(BodyOf(b), SuffixBytes(SuffixOf(b))));
    PayloadRoundTrip(BodyOf(a), SuffixOf(a));
    PayloadRoundTrip(BodyOf(b), SuffixOf(b));
    SameFieldsFromBytes(a, b);
    BodyIsOf(a);
    BodyIsOf(b);
  }
}

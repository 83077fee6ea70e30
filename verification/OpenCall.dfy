/** The open-call payload (src/domain/pcs.rs, `serialize_pcs_open_call_payload`). */
module OpenCall {
  import opened Bytes
  import opened Words
  import opened Sorting
  import opened Wrappers

  type Int64 = n: int | -0x8000_0000_0000_0000 <= n < 0x8000_0000_0000_0000

  datatype Call = Call(
    parentTaskId: string, subTaskId: string, sliceId: string, leafProofHash: string,
    leafProofBytes: Word64, casUrl: string, rPcsPlanck: string,
    deadlineUnix: Int64, issuedAtUnix: Int64, refusedBuilders: seq<string>)

  function Itself(id: string): string { id }

  /** `i64::to_be_bytes`: two's complement. */
  function BeSigned(n: Int64): seq<Byte> {
    Be64(n % 0x1_0000_0000_0000_0000)
  }

  function Fields(ids: seq<string>): seq<Byte> {
    if ids == [] then [] else Field(Utf8(ids[0])) + Fields(ids[1..])
  }

  /** The refused builders: how many, then each with its length, in text order. */
  function RefusedBytes(refused: seq<string>): seq<Byte> {
    Length(|refused|) + Fields(Sort(refused, Itself))
  }

  function Fixed(c: Call): seq<Byte> {
    Utf8(c.parentTaskId) + Utf8(c.subTaskId) + Utf8(c.sliceId) + Utf8(c.leafProofHash)
    + Be64(c.leafProofBytes) + Utf8(c.casUrl) + Utf8(c.rPcsPlanck)
    + BeSigned(c.deadlineUnix) + BeSigned(c.issuedAtUnix)
  }

  method SerializeOpenCall(c: Call) returns (payload: seq<Byte>)
    ensures payload == Fixed(c) + RefusedBytes(c.refusedBuilders)
  {
    payload := Utf8(c.parentTaskId);
    payload := payload + Utf8(c.subTaskId);
    payload := payload + Utf8(c.sliceId);
    payload := payload + Utf8(c.leafProofHash);
    payload := payload + Be64(c.leafProofBytes);
    payload := payload + Utf8(c.casUrl);
    payload := payload + Utf8(c.rPcsPlanck);
    payload := payload + BeSigned(c.deadlineUnix);
    payload := payload + BeSigned(c.issuedAtUnix);
    assert payload == Fixed(c);
    var refused := Sort(c.refusedBuilders, Itself);
    SortLength(c.refusedBuilders);
    payload := payload + Length(|refused|);
    payload := WriteFields(payload, refused);
    Assoc(Fixed(c), Length(|refused|), Fields(refused));
  }

  lemma SortLength(ids: seq<string>)
    ensures |Sort(ids, Itself)| == |ids|
  {
    SortSorts(ids, Itself);
    SameElements(ids, Sort(ids, Itself));
  }

  method WriteFields(before: seq<Byte>, ids: seq<string>) returns (payload: seq<Byte>)
    ensures payload == before + Fields(ids)
  {
    payload := before;
    for i := 0 to |ids|
      invariant payload + Fields(ids[i..]) == before + Fields(ids)
    {
      var bytes := Utf8(ids[i]);
      assert ids[i..][1..] == ids[i + 1..];
      FieldFromParts(payload, bytes, Fields(ids[i + 1..]));
      payload := payload + Length(|bytes|);
      payload := payload + bytes;
    }
    NothingAdded(payload);
  }

  lemma FieldFromParts(before: seq<Byte>, bytes: seq<Byte>, rest: seq<Byte>)
    ensures before + (Field(bytes) + rest) == ((before + Length(|bytes|)) + bytes) + rest
  {
    hide Length;
    Assoc(before, Field(bytes), rest);
    Assoc(before, Length(|bytes|), bytes);
  }

  // ---------------------------------------------------------------------
  // Reading the list back
  // ---------------------------------------------------------------------

  function TakeFields(s: seq<Byte>, n: nat): Taken<seq<seq<Byte>>> {
    if n == 0 then
      Took([], s)
    else
      match TakeField(s)
      case Short => Short
      case Took(first, rest) =>
        match TakeFields(rest, n - 1)
        case Short => Short
        case Took(others, after) => Took([first] + others, after)
  }

  function TakeList(s: seq<Byte>): Taken<seq<seq<Byte>>> {
    match Take32(s)
    case Short => Short
    case Took(n, rest) => TakeFields(rest, n)
  }

  function Encoded(ids: seq<string>): (r: seq<seq<Byte>>)
    ensures |r| == |ids|
  {
    if ids == [] then [] else [Utf8(ids[0])] + Encoded(ids[1..])
  }

  /** Every length fits the 32-bit prefix. */
  ghost predicate Fits(ids: seq<string>) {
    |ids| < 0x1_0000_0000 && forall id :: id in ids ==> |Utf8(id)| < 0x1_0000_0000
  }

  lemma {:induction false} TakeFieldsOf(ids: seq<string>, rest: seq<Byte>)
    requires forall id :: id in ids ==> |Utf8(id)| < 0x1_0000_0000
    ensures TakeFields(Fields(ids) + rest, |ids|) == Took(Encoded(ids), rest)
    decreases |ids|
  {
    hide TakeField, Field, Utf8;
    if ids == [] {
      NothingAdded(rest);
    } else {
      TakeFieldsOf(ids[1..], rest);
      Assoc(Field(Utf8(ids[0])), Fields(ids[1..]), rest);
      TakeFieldOf(Utf8(ids[0]), Fields(ids[1..]) + rest);
    }
  }

  lemma SortFits(ids: seq<string>)
    requires Fits(ids)
    ensures Fits(Sort(ids, Itself))
  {
    hide Sort, Utf8;
    SortLength(ids);
    SortSorts(ids, Itself);
    SameElements(ids, Sort(ids, Itself));
  }

  /** The list decodes to the builders in text order, and what follows it. */
  lemma RefusedRoundTrip(refused: seq<string>, rest: seq<Byte>)
    requires Fits(refused)
    ensures TakeList(RefusedBytes(refused) + rest) == Took(Encoded(Sort(refused, Itself)), rest)
    ensures Sorted(Sort(refused, Itself), Itself) && multiset(Sort(refused, Itself)) == multiset(refused)
  {
    hide Sort, Fields, Encoded, Take32, TakeFields;
    var sorted := Sort(refused, Itself);
    SortSorts(refused, Itself);
    SortLength(refused);
    SortFits(refused);
    TakeFieldsOf(sorted, rest);
    Assoc(Length(|refused|), Fields(sorted), rest);
    Take32Of(|refused|, Fields(sorted) + rest);
  }

  lemma {:induction false} EncodedInjective(a: seq<string>, b: seq<string>)
    requires Encoded(a) == Encoded(b)
    ensures a == b
    decreases |a|
  {
    hide Utf8;
    assert |Encoded(a)| == |Encoded(b)|;
    if a != [] {
      assert Encoded(a)[0] == Utf8(a[0]) && Encoded(b)[0] == Utf8(b[0]);
      assert Encoded(a)[1..] == Encoded(a[1..]) && Encoded(b)[1..] == Encoded(b[1..]);
      Utf8Injective(a[0], b[0]);
      EncodedInjective(a[1..], b[1..]);
      assert a == [a[0]] + a[1..] && b == [b[0]] + b[1..];
    }
  }

  /** Two lists sign alike exactly when one is a permutation of the other. */
  lemma RefusedBytesCanonical(a: seq<string>, b: seq<string>)
    requires Fits(a) && Fits(b)
    ensures RefusedBytes(a) == RefusedBytes(b) <==> multiset(a) == multiset(b)
  {
    hide Sort, RefusedBytes, Encoded, TakeList;
    if multiset(a) == multiset(b) {
      SameElements(a, b);
      SortForgetsOrder(a, Itself);
      assert Sort(b, Itself) == Sort(a, Itself);
      SameSortedSameBytes(a, b);
    } else if RefusedBytes(a) == RefusedBytes(b) {
      RefusedRoundTrip(a, []);
      RefusedRoundTrip(b, []);
      EncodedInjective(Sort(a, Itself), Sort(b, Itself));
    }
  }

  // ---------------------------------------------------------------------
  // Reading the fixed part back
  // ---------------------------------------------------------------------

  /** Two's complement. */
  function Signed(n: Word64): Int64 {
    if n < 0x8000_0000_0000_0000 then n else n - 0x1_0000_0000_0000_0000
  }

  lemma TakeSigned(n: Int64, rest: seq<Byte>)
    ensures Take64(BeSigned(n) + rest) == Took(n % 0x1_0000_0000_0000_0000, rest)
    ensures Signed(n % 0x1_0000_0000_0000_0000) == n
  {
    hide Be64, Take64;
    Take64Of(n % 0x1_0000_0000_0000_0000, rest);
  }

  /** The text parts are still run together: they carry no lengths. */
  datatype Decoded = Decoded(
    ids: seq<Byte>, leafProofBytes: Word64, url: seq<Byte>, deadlineUnix: Int64, issuedAtUnix: Int64, refused: seq<seq<Byte>>)

  /** The two instants at the front, and what follows. */
  function TakeInstants(s: seq<Byte>): Taken<(Int64, Int64)> {
    match Take64(s)
    case Short => Short
    case Took(deadline, rest) =>
      match Take64(rest)
      case Short => Short
      case Took(issued, after) => Took((Signed(deadline), Signed(issued)), after)
  }

  /** A reader who knows how long the text parts are gets every field. */
  function Decode(s: seq<Byte>, idBytes: nat, urlBytes: nat): Option<Decoded> {
    match TakeBytes(s, idBytes)
    case Short => None
    case Took(ids, afterIds) =>
      match Take64(afterIds)
      case Short => None
      case Took(proofBytes, afterBytes) =>
        match TakeBytes(afterBytes, urlBytes)
        case Short => None
        case Took(url, afterUrl) =>
          match TakeInstants(afterUrl)
          case Short => None
          case Took(instants, afterInstants) =>
            match TakeList(afterInstants)
            case Short => None
            case Took(refused, rest) => if rest == [] then Some(Decoded(ids, proofBytes, url, instants.0, instants.1, refused)) else None
  }

  lemma InstantsRoundTrip(deadline: Int64, issued: Int64, rest: seq<Byte>)
    ensures TakeInstants(BeSigned(deadline) + (BeSigned(issued) + rest)) == Took((deadline, issued), rest)
  {
    hide BeSigned, Take64, Signed;
    TakeSigned(deadline, BeSigned(issued) + rest);
    TakeSigned(issued, rest);
  }

  lemma FixedNests(c: Call, rest: seq<Byte>)
    ensures var ids := Utf8(c.parentTaskId) + Utf8(c.subTaskId) + Utf8(c.sliceId) + Utf8(c.leafProofHash);
            var texts := Utf8(c.casUrl) + Utf8(c.rPcsPlanck);
      Fixed(c) + rest == ids + (Be64(c.leafProofBytes) + (texts + (BeSigned(c.deadlineUnix) + (BeSigned(c.issuedAtUnix) + rest))))
  {
    hide Utf8, Be64, BeSigned;
    var ids := Utf8(c.parentTaskId) + Utf8(c.subTaskId) + Utf8(c.sliceId) + Utf8(c.leafProofHash);
    var url, price := Utf8(c.casUrl), Utf8(c.rPcsPlanck);
    var number, deadline, issued := Be64(c.leafProofBytes), BeSigned(c.deadlineUnix), BeSigned(c.issuedAtUnix);
    Assoc(ids + number, url, price);
    var texts := url + price;
    Assoc(((ids + number) + texts) + deadline, issued, rest);
    Assoc((ids + number) + texts, deadline, issued + rest);
    Assoc(ids + number, texts, deadline + (issued + rest));
    Assoc(ids, number, texts + (deadline + (issued + rest)));
  }

  /** With the text parts given, the signed bytes decode to every number and to the sorted builders. */
  lemma OpenCallRoundTrip(c: Call)
    requires Fits(c.refusedBuilders)
    ensures var ids := Utf8(c.parentTaskId) + Utf8(c.subTaskId) + Utf8(c.sliceId) + Utf8(c.leafProofHash);
            var url := Utf8(c.casUrl) + Utf8(c.rPcsPlanck);
      Decode(Fixed(c) + RefusedBytes(c.refusedBuilders), |ids|, |url|)
      == Some(Decoded(ids, c.leafProofBytes, url, c.deadlineUnix, c.issuedAtUnix, Encoded(Sort(c.refusedBuilders, Itself))))
  {
    hide Utf8, Be64, BeSigned, Take64, TakeInstants, TakeList, RefusedBytes, Fixed, Encoded, Sort;
    var ids := Utf8(c.parentTaskId) + Utf8(c.subTaskId) + Utf8(c.sliceId) + Utf8(c.leafProofHash);
    var texts := Utf8(c.casUrl) + Utf8(c.rPcsPlanck);
    var refused := RefusedBytes(c.refusedBuilders);
    FixedNests(c, refused);
    var instants := BeSigned(c.deadlineUnix) + (BeSigned(c.issuedAtUnix) + refused);
    Drop(ids, Be64(c.leafProofBytes) + (texts + instants));
    Take64Of(c.leafProofBytes, texts + instants);
    Drop(texts, instants);
    InstantsRoundTrip(c.deadlineUnix, c.issuedAtUnix, refused);
    NothingAdded(refused);
    RefusedRoundTrip(c.refusedBuilders, []);
  }

  lemma SameSortedSameBytes(a: seq<string>, b: seq<string>)
    requires |a| == |b| && Sort(a, Itself) == Sort(b, Itself)
    ensures RefusedBytes(a) == RefusedBytes(b)
  {
  }
}

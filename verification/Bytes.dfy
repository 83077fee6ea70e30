/** Bytes: big-endian numbers, UTF-8, and length-prefixed fields. */
module Bytes {
  import opened Words

  lemma Assoc(a: seq<Byte>, b: seq<Byte>, c: seq<Byte>)
    ensures (a + b) + c == a + (b + c)
  {
  }

  lemma NothingAdded(a: seq<Byte>)
    ensures a + [] == a == [] + a
  {
  }

  lemma Drop(a: seq<Byte>, b: seq<Byte>)
    ensures |a + b| >= |a| && (a + b)[..|a|] == a && (a + b)[|a|..] == b
  {
  }

  // ---------------------------------------------------------------------
  // Big-endian numbers
  // ---------------------------------------------------------------------

  /** `u32::to_be_bytes` */
  function Be32(n: Word32): (s: seq<Byte>)
    ensures |s| == 4
  {
    [n / 0x100_0000, n / 0x1_0000 % 0x100, n / 0x100 % 0x100, n % 0x100]
  }

  /** `u64::to_be_bytes` */
  function Be64(n: Word64): (s: seq<Byte>)
    ensures |s| == 8
  {
    Be32(n / 0x1_0000_0000) + Be32(n % 0x1_0000_0000)
  }

  function Of32(s: seq<Byte>): Word32
    requires |s| == 4
  {
    var a: int, b: int, c: int, d: int := s[0], s[1], s[2], s[3];
    a * 0x100_0000 + b * 0x1_0000 + c * 0x100 + d
  }

  lemma Of32OfBe32(n: Word32)
    ensures Of32(Be32(n)) == n
  {
    assert n / 0x1_0000 == n / 0x100 / 0x100 && n / 0x100_0000 == n / 0x1_0000 / 0x100;
  }

  /** What a reader takes from the front of some bytes. */
  datatype Taken<T> = Short | Took(value: T, rest: seq<Byte>)

  function TakeBytes(s: seq<Byte>, n: nat): Taken<seq<Byte>> {
    if n <= |s| then Took(s[..n], s[n..]) else Short
  }

  function Take32(s: seq<Byte>): Taken<Word32> {
    if |s| >= 4 then Took(Of32(s[..4]), s[4..]) else Short
  }

  function Take64(s: seq<Byte>): Taken<Word64> {
    match Take32(s)
    case Short => Short
    case Took(high, low) =>
      match Take32(low)
      case Short => Short
      case Took(n, rest) => Took(high * 0x1_0000_0000 + n, rest)
  }

  lemma Take32Of(n: Word32, rest: seq<Byte>)
    ensures Take32(Be32(n) + rest) == Took(n, rest)
  {
    hide Of32, Be32;
    Of32OfBe32(n);
    Drop(Be32(n), rest);
  }

  lemma Take64Of(n: Word64, rest: seq<Byte>)
    ensures Take64(Be64(n) + rest) == Took(n, rest)
  {
    hide Take32;
    var high, low := n / 0x1_0000_0000, n % 0x1_0000_0000;
    Assoc(Be32(high), Be32(low), rest);
    Take32Of(high, Be32(low) + rest);
    Take32Of(low, rest);
  }

  // ---------------------------------------------------------------------
  // Length-prefixed fields
  // ---------------------------------------------------------------------

  /** `(len as u32).to_be_bytes()`: the cast wraps around. */
  function Length(n: nat): (s: seq<Byte>)
    ensures |s| == 4
  {
    Be32(n % 0x1_0000_0000)
  }

  function Field(bytes: seq<Byte>): seq<Byte> {
    Length(|bytes|) + bytes
  }

  function TakeField(s: seq<Byte>): Taken<seq<Byte>> {
    match Take32(s)
    case Short => Short
    case Took(n, rest) => TakeBytes(rest, n)
  }

  lemma TakeFieldOf(bytes: seq<Byte>, rest: seq<Byte>)
    requires |bytes| < 0x1_0000_0000
    ensures TakeField(Field(bytes) + rest) == Took(bytes, rest)
  {
    hide Take32, Be32;
    Assoc(Length(|bytes|), bytes, rest);
    Take32Of(|bytes|, bytes + rest);
    Drop(bytes, rest);
  }

  // ---------------------------------------------------------------------
  // UTF-8 (RFC 3629)
  // ---------------------------------------------------------------------

  function Utf8Char(c: char): (s: seq<Byte>)
    ensures 1 <= |s| <= 4
  {
    var n := c as int;
    if n < 0x80 then [n]
    else if n < 0x800 then [0xC0 + n / 0x40, 0x80 + n % 0x40]
    else if n < 0x1_0000 then [0xE0 + n / 0x1000, 0x80 + n / 0x40 % 0x40, 0x80 + n % 0x40]
    else [0xF0 + n / 0x4_0000, 0x80 + n / 0x1000 % 0x40, 0x80 + n / 0x40 % 0x40, 0x80 + n % 0x40]
  }

  /** `str::as_bytes` */
  function Utf8(text: string): seq<Byte> {
    if text == "" then [] else Utf8Char(text[0]) + Utf8(text[1..])
  }

  function At(s: seq<Byte>, i: nat): int
    requires i < |s|
  {
    s[i]
  }

  /** The number of the first character, from its bytes alone. */
  function FirstCode(s: seq<Byte>): int {
    if |s| >= 1 && s[0] < 0x80 then At(s, 0)
    else if |s| >= 2 && s[0] < 0xE0 then (At(s, 0) - 0xC0) * 0x40 + (At(s, 1) - 0x80)
    else if |s| >= 3 && s[0] < 0xF0 then (At(s, 0) - 0xE0) * 0x1000 + (At(s, 1) - 0x80) * 0x40 + (At(s, 2) - 0x80)
    else if |s| >= 4 then (At(s, 0) - 0xF0) * 0x4_0000 + (At(s, 1) - 0x80) * 0x1000 + (At(s, 2) - 0x80) * 0x40 + (At(s, 3) - 0x80)
    else -1
  }

  lemma FirstCodeOfChar(c: char)
    ensures FirstCode(Utf8Char(c)) == c as int
  {
    var n := c as int;
    assert n / 0x1000 == n / 0x40 / 0x40 && n / 0x4_0000 == n / 0x1000 / 0x40;
  }

  lemma FirstCodePrefix(c: char, rest: seq<Byte>)
    ensures FirstCode(Utf8Char(c) + rest) == FirstCode(Utf8Char(c))
  {
    var s := Utf8Char(c);
    assert forall i :: 0 <= i < |s| ==> (s + rest)[i] == s[i];
  }

  lemma FirstCodeOf(c: char, rest: seq<Byte>)
    ensures FirstCode(Utf8Char(c) + rest) == c as int
  {
    hide FirstCode, Utf8Char;
    FirstCodePrefix(c, rest);
    FirstCodeOfChar(c);
  }

  /** Different texts have different UTF-8 bytes. */
  lemma {:induction false} Utf8Injective(a: string, b: string)
    requires Utf8(a) == Utf8(b)
    ensures a == b
    decreases |a|
  {
    hide Utf8Char, FirstCode;
    if a != "" && b != "" {
      FirstCodeOf(a[0], Utf8(a[1..]));
      FirstCodeOf(b[0], Utf8(b[1..]));
      Drop(Utf8Char(a[0]), Utf8(a[1..]));
      Drop(Utf8Char(b[0]), Utf8(b[1..]));
      Utf8Injective(a[1..], b[1..]);
      assert a == [a[0]] + a[1..] && b == [b[0]] + b[1..];
    }
  }
}

/**
 Float text for signing (src/domain/p2p.rs, `go_json_float`): shortest digits
 re-laid-out the way Go `encoding/json` writes a float64. The digits come from
 ryu; its text is the input here.
 */
module GoFloat {
  import opened Wrappers
  import opened Decimals

  /** A finite nonzero decimal as ryu may spell it: `-1.15`, `1e20`, `2.4e-6`. */
  datatype Spelling = Spelling(negative: bool, whole: string, frac: Option<string>, exp: Option<Exponent>)

  datatype Exponent = Exponent(negative: bool, digits: string)

  predicate WellFormed(s: Spelling) {
    && s.whole != "" && AllDigits(s.whole)
    && (s.frac.Some? ==> s.frac.value != "" && AllDigits(s.frac.value))
    && (s.exp.Some? ==> s.exp.value.digits != "" && AllDigits(s.exp.value.digits) && NatOf(s.exp.value.digits) < 0x8000_0000)
    && (exists i :: 0 <= i < |Mantissa(s)| && Mantissa(s)[i] != '0')
  }

  function Fraction(s: Spelling): string {
    if s.frac.Some? then s.frac.value else ""
  }

  function Mantissa(s: Spelling): string {
    s.whole + Fraction(s)
  }

  function Sign(negative: bool): string {
    if negative then "-" else ""
  }

  function ExponentText(e: Exponent): string {
    Sign(e.negative) + e.digits
  }

  function FractionText(s: Spelling): string {
    if s.frac.Some? then "." + s.frac.value else ""
  }

  function ExponentTail(s: Spelling): string {
    if s.exp.Some? then "e" + ExponentText(s.exp.value) else ""
  }

  /** The text of a spelling. */
  function Spell(s: Spelling): string {
    Sign(s.negative) + ((s.whole + FractionText(s)) + ExponentTail(s))
  }

  function ExponentOf(s: Spelling): int
    requires WellFormed(s)
  {
    match s.exp
    case None => 0
    case Some(e) => if e.negative then 0 - NatOf(e.digits) as int else NatOf(e.digits) as int
  }

  /** The number a spelling denotes. */
  function Meaning(s: Spelling): Decimal
    requires WellFormed(s)
  {
    Decimal(s.negative, ValueOf(s.whole, Fraction(s), ExponentOf(s)))
  }

  // ---------------------------------------------------------------------
  // `decimal_digits`
  // ---------------------------------------------------------------------

  /** `str::find` of one character, or the length of the text. */
  function Find(s: string, c: char): (i: nat)
    ensures i <= |s|
    ensures forall j :: 0 <= j < i ==> s[j] != c
    ensures i < |s| ==> s[i] == c
  {
    if s == "" || s[0] == c then 0 else 1 + Find(s[1..], c)
  }

  /** `str::parse::<i32>().unwrap_or(0)`. */
  function ParseI32(s: string): int {
    var negative := StartsWith(s, '-');
    var digits := if negative || StartsWith(s, '+') then s[1..] else s;
    if digits == "" || !AllDigits(digits) then
      0
    else
      var n := if negative then 0 - NatOf(digits) as int else NatOf(digits) as int;
      if -0x8000_0000 <= n < 0x8000_0000 then n else 0
  }

  function Without(s: string, c: char): string {
    if s == "" then ""
    else if s[0] == c then Without(s[1..], c)
    else [s[0]] + Without(s[1..], c)
  }

  function TrimStart(s: string): string {
    if s != "" && s[0] == '0' then TrimStart(s[1..]) else s
  }

  function TrimEnd(s: string): string {
    if s != "" && s[|s| - 1] == '0' then TrimEnd(s[..|s| - 1]) else s
  }

  datatype Digits = Digits(negative: bool, digits: string, exp: int)

  /** `strip_prefix('-')`: the text after an optional sign. */
  function Unsigned(text: string): string {
    if StartsWith(text, '-') then text[1..] else text
  }

  /** `split_once('e')`, with an exponent of 0 when there is none. */
  function MantissaPart(unsigned: string): string {
    unsigned[..Find(unsigned, 'e')]
  }

  function ExponentPart(unsigned: string): int {
    var e := Find(unsigned, 'e');
    ParseI32(if e < |unsigned| then unsigned[e + 1..] else "0")
  }

  /** Sign, significant digits, and the exponent of the first digit. */
  function DecimalDigits(text: string): Digits {
    var mantissa := MantissaPart(Unsigned(text));
    var point := Find(mantissa, '.');
    var all := Without(mantissa, '.');
    var leading := |all| - |TrimStart(all)|;
    Digits(StartsWith(text, '-'), TrimEnd(TrimStart(all)), point - 1 - leading + ExponentPart(Unsigned(text)))
  }

  // ---------------------------------------------------------------------
  // Layout
  // ---------------------------------------------------------------------

  /** `d.ddd × 10^exp` written without an exponent. */
  function PlainDecimal(digits: string, exp: int): string {
    if exp < 0 then
      "0" + ("." + (Zeros(-exp - 1) + digits))
    else
      var wholeLen := exp + 1;
      if |digits| <= wholeLen then
        digits + Zeros(wholeLen - |digits|)
      else
        digits[..wholeLen] + ("." + digits[wholeLen..])
  }

  function TwoDigits(n: nat): (s: string)
    ensures s != "" && AllDigits(s) && NatOf(s) == n
  {
    if n < 10 then
      LeadingZero(NatText(n));
      "0" + NatText(n)
    else
      NatText(n)
  }

  /** The exponent `e-7` or `e+21` of the scientific layout. */
  function ScientificTail(exp: int): string {
    if exp < 0 then "e-" + NatText(-exp) else "e+" + TwoDigits(exp)
  }

  function ScientificDecimal(digits: string, exp: int): string
    requires digits != ""
  {
    var mantissa := if |digits| == 1 then digits else digits[..1] + ("." + digits[1..]);
    mantissa + ScientificTail(exp)
  }

  /** A float64 as the printer meets it: a signed zero, or ryu's text of a nonzero one. */
  datatype Float = Zero(negative: bool) | Nonzero(spelling: Spelling)

  predicate GoodFloat(f: Float) {
    f.Nonzero? ==> WellFormed(f.spelling)
  }

  /** ryu only ever spells well-formed text. */
  type Float64 = f: Float | GoodFloat(f) witness Zero(false)

  function FloatMeaning(f: Float): Decimal
    requires GoodFloat(f)
  {
    match f
    case Zero(negative) => Decimal(negative, 0.0)
    case Nonzero(s) => Meaning(s)
  }

  const PLAIN_FROM: real := 0.000001
  const PLAIN_BELOW: real := 1000000000000000000000.0

  /** `go_json_float`: plain from 1e-6 up to 1e21, scientific outside. */
  function GoJsonFloat(f: Float): string
    requires GoodFloat(f)
  {
    match f
    case Zero(negative) => if negative then "-0" else "0"
    case Nonzero(s) =>
      DecimalDigitsOf(s);
      var d := DecimalDigits(Spell(s));
      var magnitude := Meaning(s).magnitude;
      var body :=
        if PLAIN_FROM <= magnitude < PLAIN_BELOW
        then PlainDecimal(d.digits, d.exp)
        else ScientificDecimal(d.digits, d.exp);
      Sign(d.negative) + body
  }

  // ---------------------------------------------------------------------
  // What `decimal_digits` finds
  // ---------------------------------------------------------------------

  lemma {:induction false} FindInConcat(a: string, b: string, c: char)
    requires forall i :: 0 <= i < |a| ==> a[i] != c
    requires b == "" || b[0] == c
    ensures Find(a + b, c) == |a|
    decreases |a|
  {
    if a == "" {
      assert a + b == b;
    } else {
      assert (a + b)[1..] == a[1..] + b;
      FindInConcat(a[1..], b, c);
    }
  }

  lemma {:induction false} WithoutConcat(a: string, b: string, c: char)
    ensures Without(a + b, c) == Without(a, c) + Without(b, c)
    decreases |a|
  {
    if a == "" {
      assert a + b == b;
    } else {
      assert (a + b)[1..] == a[1..] + b;
      WithoutConcat(a[1..], b, c);
    }
  }

  lemma {:induction false} WithoutAbsent(a: string, c: char)
    requires forall i :: 0 <= i < |a| ==> a[i] != c
    ensures Without(a, c) == a
    decreases |a|
  {
    if a != "" {
      WithoutAbsent(a[1..], c);
    }
  }

  lemma OneMoreZero(n: nat, tail: string)
    ensures Zeros(n + 1) + tail == "0" + (Zeros(n) + tail)
  {
    assert Zeros(n + 1) == "0" + Zeros(n);
    hide *;
    Concat("0", Zeros(n), tail);
  }

  /** Trimming splits a digit string into zeros, its normal core, and zeros. */
  lemma {:induction false} TrimStartSplits(s: string)
    requires AllDigits(s)
    ensures |TrimStart(s)| <= |s| && AllDigits(TrimStart(s))
    ensures s == Zeros(|s| - |TrimStart(s)|) + TrimStart(s)
    ensures TrimStart(s) != "" ==> TrimStart(s)[0] != '0'
    ensures (exists i :: 0 <= i < |s| && s[i] != '0') ==> TrimStart(s) != ""
    decreases |s|
  {
    if s != "" && s[0] == '0' {
      TrimStartSplits(s[1..]);
      assert s == "0" + s[1..];
      OneMoreZero(|s[1..]| - |TrimStart(s)|, TrimStart(s));
      if i :| 0 <= i < |s| && s[i] != '0' {
        assert s[1..][i - 1] != '0';
      }
    } else {
      assert s == "" + s;
    }
  }

  lemma {:induction false} TrimEndSplits(s: string)
    requires AllDigits(s) && s != "" && s[0] != '0'
    ensures 0 < |TrimEnd(s)| <= |s| && Normal(TrimEnd(s))
    ensures s == TrimEnd(s) + Zeros(|s| - |TrimEnd(s)|)
    decreases |s|
  {
    if s[|s| - 1] == '0' {
      TrimEndSplits(s[..|s| - 1]);
      var n := |s| - |TrimEnd(s)|;
      assert s == s[..|s| - 1] + "0";
      ZerosAtEnd(n - 1);
      Concat(TrimEnd(s), Zeros(n - 1), "0");
    } else {
      assert s == s + "";
    }
  }

  function Core(s: Spelling): string {
    TrimEnd(TrimStart(Mantissa(s)))
  }

  function FirstExponent(s: Spelling): int
    requires WellFormed(s)
  {
    |s.whole| - 1 - (|Mantissa(s)| - |TrimStart(Mantissa(s))|) + ExponentOf(s)
  }

  lemma ParseExponentText(e: Exponent)
    requires e.digits != "" && AllDigits(e.digits) && NatOf(e.digits) < 0x8000_0000
    ensures ParseI32(ExponentText(e)) == if e.negative then 0 - NatOf(e.digits) as int else NatOf(e.digits) as int
  {
    hide NatOf;
    if e.negative {
      DropHead("-", e.digits);
    } else {
      EmptyText(e.digits);
    }
  }

  lemma UnsignedOf(negative: bool, unsigned: string)
    requires unsigned != "" && IsDigit(unsigned[0])
    ensures StartsWith(Sign(negative) + unsigned, '-') == negative
    ensures Unsigned(Sign(negative) + unsigned) == unsigned
  {
    if !negative {
      assert "" + unsigned == unsigned;
    }
  }

  lemma SplitAtExponent(mantissa: string, tail: string)
    requires forall i :: 0 <= i < |mantissa| ==> mantissa[i] != 'e'
    requires tail == "" || tail[0] == 'e'
    ensures MantissaPart(mantissa + tail) == mantissa
    ensures ExponentPart(mantissa + tail) == if tail == "" then 0 else ParseI32(tail[1..])
  {
    FindInConcat(mantissa, tail, 'e');
    var unsigned := mantissa + tail;
    assert unsigned[..|mantissa|] == mantissa;
    if tail == "" {
      assert ParseI32("0") == 0 by { assert NatOf("0"[..0]) == 0; }
    } else {
      assert unsigned[|mantissa| + 1..] == tail[1..];
    }
  }

  lemma PointSplits(whole: string, frac: Option<string>)
    requires AllDigits(whole) && (frac.Some? ==> AllDigits(frac.value))
    ensures var pointed := if frac.Some? then "." + frac.value else "";
            && Find(whole + pointed, '.') == |whole|
            && Without(whole + pointed, '.') == whole + (if frac.Some? then frac.value else "")
  {
    var pointed := if frac.Some? then "." + frac.value else "";
    FindInConcat(whole, pointed, '.');
    WithoutConcat(whole, pointed, '.');
    WithoutAbsent(whole, '.');
    if frac.Some? {
      DropHead(".", frac.value);
      WithoutAbsent(frac.value, '.');
    }
  }

  lemma MantissaDigits(s: Spelling)
    requires WellFormed(s)
    ensures Find(s.whole + FractionText(s), '.') == |s.whole|
    ensures Without(s.whole + FractionText(s), '.') == Mantissa(s)
    ensures forall i :: 0 <= i < |s.whole + FractionText(s)| ==> (s.whole + FractionText(s))[i] != 'e'
  {
    PointSplits(s.whole, s.frac);
  }

  lemma ExponentTailOf(s: Spelling)
    requires WellFormed(s)
    ensures ExponentTail(s) == "" || ExponentTail(s)[0] == 'e'
    ensures (if ExponentTail(s) == "" then 0 else ParseI32(ExponentTail(s)[1..])) == ExponentOf(s)
  {
    if s.exp.Some? {
      ParseExponentText(s.exp.value);
      assert ExponentTail(s)[1..] == ExponentText(s.exp.value);
    }
  }

  /** The text functions recover sign, core digits and exponent of a spelling. */
  lemma DecimalDigitsOf(s: Spelling)
    requires WellFormed(s)
    ensures DecimalDigits(Spell(s)) == Digits(s.negative, Core(s), FirstExponent(s))
    ensures Normal(Core(s))
  {
    hide DecimalDigits, MantissaPart, ExponentPart, Unsigned, Find, Without, TrimStart, TrimEnd, ParseI32, Normal, NatOf, ExponentOf;
    var mantissa, tail := s.whole + FractionText(s), ExponentTail(s);
    CoreIsNormal(s);
    MantissaDigits(s);
    ExponentTailOf(s);
    SplitAtExponent(mantissa, tail);
    UnsignedOf(s.negative, mantissa + tail);
    DecimalDigitsOfParts(Spell(s), mantissa, tail);
  }

  lemma DecimalDigitsOfParts(text: string, mantissa: string, tail: string)
    requires Unsigned(text) == mantissa + tail && MantissaPart(mantissa + tail) == mantissa
    ensures var all := Without(mantissa, '.');
            DecimalDigits(text) == Digits(StartsWith(text, '-'), TrimEnd(TrimStart(all)),
              Find(mantissa, '.') - 1 - (|all| - |TrimStart(all)|) + ExponentPart(mantissa + tail))
  {
  }

  lemma CoreIsNormal(s: Spelling)
    requires WellFormed(s)
    ensures Normal(Core(s))
  {
    TrimStartSplits(Mantissa(s));
    TrimEndSplits(TrimStart(Mantissa(s)));
  }

  lemma TrimStartKeepsValue(m: string)
    requires AllDigits(m)
    ensures AllDigits(TrimStart(m)) && NatOf(TrimStart(m)) == NatOf(m)
  {
    TrimStartSplits(m);
    hide NatOf, TrimStart, Zeros;
    LeadingZeros(|m| - |TrimStart(m)|, TrimStart(m));
  }

  lemma TrimEndKeepsValue(s: string, k: int)
    requires AllDigits(s) && s != "" && s[0] != '0'
    ensures Normal(TrimEnd(s))
    ensures Scale(NatOf(s), k) == Scale(NatOf(TrimEnd(s)), k + |s| - |TrimEnd(s)|)
  {
    TrimEndSplits(s);
    hide Scale, NatOf, TrimEnd, Zeros;
    TrailingKeepsValue(s, TrimEnd(s), |s| - |TrimEnd(s)|, k);
  }

  lemma TrailingKeepsValue(s: string, core: string, n: nat, k: int)
    requires AllDigits(core) && s == core + Zeros(n) && AllDigits(s)
    ensures Scale(NatOf(s), k) == Scale(NatOf(core), k + n)
  {
    hide *;
    ScaleTrailing(core, n, k);
  }

  /** Trimming a nonzero digit string keeps its value, at a higher exponent. */
  lemma TrimKeepsValue(m: string, k: int)
    requires AllDigits(m) && exists i :: 0 <= i < |m| && m[i] != '0'
    ensures Normal(TrimEnd(TrimStart(m)))
    ensures Scale(NatOf(m), k) == Scale(NatOf(TrimEnd(TrimStart(m))), k + |TrimStart(m)| - |TrimEnd(TrimStart(m))|)
  {
    TrimStartSplits(m);
    hide Scale, NatOf, TrimStart, TrimEnd, Zeros;
    TrimStartKeepsValue(m);
    TrimEndKeepsValue(TrimStart(m), k);
  }

  /** The value is that of the core digits at the exponent of the first digit. */
  lemma CoreKeepsValue(s: Spelling)
    requires WellFormed(s)
    ensures Normal(Core(s))
    ensures Meaning(s).magnitude == Scale(NatOf(Core(s)), FirstExponent(s) - |Core(s)| + 1)
  {
    hide NatOf, Scale, TrimStart, TrimEnd, Normal;
    TrimKeepsValue(Mantissa(s), ExponentOf(s) - |Fraction(s)|);
  }

  // ---------------------------------------------------------------------
  // Reading the text back
  // ---------------------------------------------------------------------

  /** What may follow a number: nothing, or a character no number continues with. */
  predicate Delimited(rest: string) {
    rest == "" || (!IsDigit(rest[0]) && rest[0] != '.' && rest[0] != 'e' && rest[0] != 'E')
  }

  function Pointed(frac: string): string {
    if frac == "" then "" else "." + frac
  }

  lemma ReadWholeOf(whole: string, after: string)
    requires AllDigits(whole) && (whole == "0" || (whole != "" && whole[0] != '0'))
    requires after == "" || !IsDigit(after[0])
    ensures ReadWhole(whole + after) == Got(whole, after)
  {
    if whole == "0" {
      assert (whole + after)[1..] == after;
    } else {
      TakeDigitsStops(whole, after);
    }
  }

  lemma ReadFractionOf(frac: string, after: string)
    requires AllDigits(frac)
    requires after == "" || (!IsDigit(after[0]) && after[0] != '.')
    ensures ReadFraction(Pointed(frac) + after) == Got(frac, after)
  {
    if frac == "" {
      assert "" + after == after;
    } else {
      assert (Pointed(frac) + after)[1..] == frac + after;
      TakeDigitsStops(frac, after);
    }
  }

  /** A number is read from its parts, whatever they are. */
  lemma ReadParts(negative: bool, whole: string, frac: string, tail: string, exp: int, rest: string)
    requires AllDigits(whole) && (whole == "0" || (whole != "" && whole[0] != '0'))
    requires AllDigits(frac)
    requires tail == "" || (!IsDigit(tail[0]) && tail[0] != '.')
    requires ReadExponent(tail) == Got(exp, rest)
    ensures ReadNumber(Sign(negative) + (whole + (Pointed(frac) + tail)))
            == Got(Decimal(negative, ValueOf(whole, frac, exp)), rest)
  {
    var afterWhole := Pointed(frac) + tail;
    var unsigned := whole + afterWhole;
    ReadFractionOf(frac, tail);
    assert afterWhole == "" || !IsDigit(afterWhole[0]);
    ReadWholeOf(whole, afterWhole);
    UnsignedOf(negative, unsigned);
  }

  /** The integer and fraction digits of the plain layout. */
  function PlainWhole(digits: string, exp: int): string {
    if exp < 0 then "0"
    else if |digits| <= exp + 1 then digits + Zeros(exp + 1 - |digits|)
    else digits[..exp + 1]
  }

  function PlainFraction(digits: string, exp: int): string {
    if exp < 0 then Zeros(-exp - 1) + digits
    else if |digits| <= exp + 1 then ""
    else digits[exp + 1..]
  }

  lemma PlainPartsText(digits: string, exp: int)
    requires Normal(digits)
    ensures AllDigits(PlainWhole(digits, exp)) && AllDigits(PlainFraction(digits, exp))
    ensures PlainWhole(digits, exp) == "0" || (PlainWhole(digits, exp) != "" && PlainWhole(digits, exp)[0] != '0')
    ensures PlainDecimal(digits, exp) == PlainWhole(digits, exp) + Pointed(PlainFraction(digits, exp))
  {
    hide NatOf;
    if 0 <= exp && |digits| <= exp + 1 {
      var whole := PlainWhole(digits, exp);
      assert whole + "" == whole;
    }
  }

  lemma PlainPartsValue(digits: string, exp: int)
    requires AllDigits(digits)
    requires AllDigits(PlainWhole(digits, exp)) && AllDigits(PlainFraction(digits, exp))
    ensures ValueOf(PlainWhole(digits, exp), PlainFraction(digits, exp), 0) == Scale(NatOf(digits), exp - |digits| + 1)
  {
    hide Scale, NatOf, ValueOf, Zeros, AllDigits;
    if exp < 0 {
      SmallPartsValue(digits, exp);
    } else if |digits| <= exp + 1 {
      PaddedValue(digits, exp + 1 - |digits|);
    } else {
      ValueOfSplit(digits, exp + 1, 0);
    }
  }

  lemma PaddedValue(digits: string, zeros: nat)
    requires AllDigits(digits)
    ensures AllDigits(digits + Zeros(zeros)) && AllDigits("")
    ensures ValueOf(digits + Zeros(zeros), "", 0) == Scale(NatOf(digits), zeros)
  {
    hide Scale, NatOf, ValueOf, Zeros;
    var padded := digits + Zeros(zeros);
    ScaleTrailing(digits, zeros, 0);
    ValueOfWhole(padded);
  }

  lemma ValueOfWhole(whole: string)
    requires AllDigits(whole)
    ensures ValueOf(whole, "", 0) == Scale(NatOf(whole), 0)
  {
    EmptyText(whole);
  }

  lemma ValueOfSplit(digits: string, at: nat, exp: int)
    requires AllDigits(digits) && at <= |digits|
    ensures ValueOf(digits[..at], digits[at..], exp) == Scale(NatOf(digits), exp - |digits| + at)
  {
    hide Scale, NatOf;
    SplitJoin(digits, at);
  }

  lemma SmallPartsValue(digits: string, exp: int)
    requires AllDigits(digits) && exp < 0
    ensures AllDigits(Zeros(-exp - 1) + digits)
    ensures ValueOf("0", Zeros(-exp - 1) + digits, 0) == Scale(NatOf(digits), exp - |digits| + 1)
  {
    hide Scale, NatOf;
    LeadingZeros(-exp - 1, digits);
    LeadingZero(Zeros(-exp - 1) + digits);
  }

  lemma Concat4(a: string, b: string, c: string, d: string)
    ensures (a + (b + c)) + d == a + (b + (c + d))
  {
  }

  lemma Concat5(a: string, b: string, c: string, d: string, e: string)
    ensures (a + ((b + c) + d)) + e == a + (b + (c + (d + e)))
  {
  }

  lemma ReadPlain(negative: bool, digits: string, exp: int, rest: string)
    requires Normal(digits) && Delimited(rest)
    ensures ReadNumber((Sign(negative) + PlainDecimal(digits, exp)) + rest)
            == Got(Decimal(negative, Scale(NatOf(digits), exp - |digits| + 1)), rest)
  {
    hide NatOf;
    var whole, frac := PlainWhole(digits, exp), PlainFraction(digits, exp);
    PlainPartsText(digits, exp);
    PlainPartsValue(digits, exp);
    assert ReadExponent(rest) == Got(0, rest);
    ReadParts(negative, whole, frac, rest, 0, rest);
    Concat4(Sign(negative), whole, Pointed(frac), rest);
  }

  lemma TwoHeads(a: char, b: char, rest: string)
    ensures var text := [a, b] + rest;
            text != "" && text[0] == a && text[1..] != "" && text[1..][0] == b && text[1..][1..] == rest
  {
  }

  lemma ReadExponentDigits(negative: bool, digits: string, rest: string)
    requires AllDigits(digits) && digits != "" && Delimited(rest)
    ensures ReadExponent((if negative then "e-" else "e+") + (digits + rest))
            == Got(if negative then 0 - NatOf(digits) as int else NatOf(digits) as int, rest)
  {
    hide NatOf;
    TakeDigitsStops(digits, rest);
    if negative {
      TwoHeads('e', '-', digits + rest);
      ReadSignedExponent("e-" + (digits + rest), true, digits, rest);
    } else {
      TwoHeads('e', '+', digits + rest);
      ReadSignedExponent("e+" + (digits + rest), false, digits, rest);
    }
  }

  lemma ReadSignedExponent(text: string, negative: bool, digits: string, rest: string)
    requires |text| >= 2 && text[0] == 'e' && text[1] == (if negative then '-' else '+')
    requires TakeDigits(text[1..][1..]) == (digits, rest)
    requires AllDigits(digits) && digits != ""
    ensures ReadExponent(text) == Got(if negative then 0 - NatOf(digits) as int else NatOf(digits) as int, rest)
  {
    hide NatOf;
  }

  lemma ReadTail(exp: int, rest: string)
    requires Delimited(rest)
    ensures ReadExponent(ScientificTail(exp) + rest) == Got(exp, rest)
    ensures ScientificTail(exp)[0] == 'e'
  {
    var digits := if exp < 0 then NatText(-exp) else TwoDigits(exp);
    var marker := if exp < 0 then "e-" else "e+";
    assert ScientificTail(exp) == marker + digits;
    hide *;
    ReadExponentDigits(exp < 0, digits, rest);
    Concat(marker, digits, rest);
  }

  lemma ScientificParts(digits: string, exp: int)
    requires Normal(digits)
    ensures ScientificDecimal(digits, exp) == (digits[..1] + Pointed(digits[1..])) + ScientificTail(exp)
  {
    if |digits| == 1 {
      assert digits[..1] == digits && digits[1..] == "";
      assert digits + "" == digits;
    }
  }

  lemma ReadScientificParts(negative: bool, whole: string, frac: string, text: string, exp: int, rest: string)
    requires AllDigits(whole) && whole != "" && whole[0] != '0' && AllDigits(frac) && Delimited(rest)
    requires text == (whole + Pointed(frac)) + ScientificTail(exp)
    ensures ReadNumber((Sign(negative) + text) + rest) == Got(Decimal(negative, ValueOf(whole, frac, exp)), rest)
  {
    ReadTail(exp, rest);
    ReadParts(negative, whole, frac, ScientificTail(exp) + rest, exp, rest);
    Concat5(Sign(negative), whole, Pointed(frac), ScientificTail(exp), rest);
  }

  lemma NormalSplit(digits: string)
    requires Normal(digits)
    ensures AllDigits(digits) && digits != ""
    ensures AllDigits(digits[..1]) && AllDigits(digits[1..]) && digits[..1][0] != '0'
  {
  }

  lemma ReadScientific(negative: bool, digits: string, exp: int, rest: string)
    requires Normal(digits) && Delimited(rest)
    ensures ReadNumber((Sign(negative) + ScientificDecimal(digits, exp)) + rest)
            == Got(Decimal(negative, Scale(NatOf(digits), exp - |digits| + 1)), rest)
  {
    NormalSplit(digits);
    hide *;
    var whole, frac, text := digits[..1], digits[1..], ScientificDecimal(digits, exp);
    ScientificParts(digits, exp);
    ReadScientificParts(negative, whole, frac, text, exp, rest);
    ScientificValue(digits, whole, frac, exp);
  }

  lemma ScientificValue(digits: string, whole: string, frac: string, exp: int)
    requires AllDigits(digits) && digits != "" && whole == digits[..1] && frac == digits[1..]
    requires AllDigits(whole) && AllDigits(frac)
    ensures ValueOf(whole, frac, exp) == Scale(NatOf(digits), exp - |digits| + 1)
  {
    hide *;
    ValueOfSplit(digits, 1, exp);
  }

  /** The text of a nonzero float from its normal digits. */
  function NormalText(negative: bool, digits: string, exp: int, magnitude: real): string
    requires digits != ""
  {
    Sign(negative) + (
      if PLAIN_FROM <= magnitude < PLAIN_BELOW then PlainDecimal(digits, exp) else ScientificDecimal(digits, exp))
  }

  lemma TextOfNonzero(s: Spelling)
    requires WellFormed(s)
    ensures Normal(Core(s))
    ensures GoJsonFloat(Nonzero(s)) == NormalText(s.negative, Core(s), FirstExponent(s), Meaning(s).magnitude)
  {
    DecimalDigitsOf(s);
  }

  lemma ReadNormalText(negative: bool, digits: string, exp: int, magnitude: real, rest: string)
    requires Normal(digits) && Delimited(rest)
    requires magnitude == Scale(NatOf(digits), exp - |digits| + 1)
    ensures ReadNumber(NormalText(negative, digits, exp, magnitude) + rest) == Got(Decimal(negative, magnitude), rest)
  {
    if PLAIN_FROM <= magnitude < PLAIN_BELOW {
      ReadPlain(negative, digits, exp, rest);
    } else {
      ReadScientific(negative, digits, exp, rest);
    }
  }

  lemma ReadZero(negative: bool, rest: string)
    requires Delimited(rest)
    ensures ReadNumber(GoJsonFloat(Zero(negative)) + rest) == Got(Decimal(negative, 0.0), rest)
  {
    hide ReadNumber, Scale, NatOf, ValueOf;
    assert ReadExponent(rest) == Got(0, rest);
    assert Pointed("") + rest == rest;
    ReadParts(negative, "0", "", rest, 0, rest);
    Concat(Sign(negative), "0", rest);
    ZeroText();
    SignedZero(negative);
  }

  lemma SignedZero(negative: bool)
    ensures GoJsonFloat(Zero(negative)) == Sign(negative) + "0"
  {
  }

  lemma ZeroText()
    ensures ValueOf("0", "", 0) == 0.0
  {
    assert "0" + "" == "0";
    assert NatOf("0"[..0]) == 0;
  }

  /**
   The printed float denotes the number that ryu's text denotes: a reader of
   RFC 8259 numbers gets back the same sign and magnitude, and stops at `rest`.
   */
  lemma FloatRoundTrip(f: Float, rest: string)
    requires GoodFloat(f) && Delimited(rest)
    ensures ReadNumber(GoJsonFloat(f) + rest) == Got(FloatMeaning(f), rest)
  {
    hide ReadNumber, DecimalDigits, NormalText, Core, FirstExponent, Scale;
    match f
    case Zero(negative) => ReadZero(negative, rest);
    case Nonzero(s) =>
      TextOfNonzero(s);
      CoreKeepsValue(s);
      ReadNormalText(s.negative, Core(s), FirstExponent(s), Meaning(s).magnitude, rest);
  }

  lemma SameNumberSameText(s: Spelling, t: Spelling)
    requires WellFormed(s) && WellFormed(t) && Meaning(s) == Meaning(t)
    ensures GoJsonFloat(Nonzero(s)) == GoJsonFloat(Nonzero(t))
  {
    hide NormalText, GoJsonFloat, Core, FirstExponent, Scale, WellFormed, Normal, ValueOf;
    CoreIsNormal(s);
    CoreIsNormal(t);
    assert Core(s) == Core(t) && FirstExponent(s) == FirstExponent(t) by {
      CoreKeepsValue(s);
      CoreKeepsValue(t);
      NormalFormUnique(Core(s), FirstExponent(s) - |Core(s)| + 1, Core(t), FirstExponent(t) - |Core(t)| + 1);
    }
    TextOfNonzero(s);
    TextOfNonzero(t);
  }

  /** Two floats print the same text exactly when they are the same number. */
  lemma FloatTextCanonical(f: Float, g: Float)
    requires GoodFloat(f) && GoodFloat(g)
    ensures FloatMeaning(f) == FloatMeaning(g) <==> GoJsonFloat(f) == GoJsonFloat(g)
  {
    if FloatMeaning(f) == FloatMeaning(g) {
      match (f, g)
      case (Zero(_), Zero(_)) =>
      case (Nonzero(s), Nonzero(t)) => SameNumberSameText(s, t);
      case (Nonzero(s), Zero(_)) => NonzeroMagnitude(s);
      case (Zero(_), Nonzero(t)) => NonzeroMagnitude(t);
    } else {
      FloatRoundTrip(f, "");
      FloatRoundTrip(g, "");
    }
  }

  lemma NonzeroMagnitude(s: Spelling)
    requires WellFormed(s)
    ensures Meaning(s).magnitude > 0.0
  {
    hide WellFormed, Meaning, Core, FirstExponent, NatOf, Pow10;
    CoreIsNormal(s);
    CoreKeepsValue(s);
    NatOfPositive(Core(s));
    ScalePositive(NatOf(Core(s)), FirstExponent(s) - |Core(s)| + 1);
  }

  // ---------------------------------------------------------------------
  // The layout
  // ---------------------------------------------------------------------

  predicate Lacks(text: string, c: char) {
    forall i :: 0 <= i < |text| ==> text[i] != c
  }

  lemma LacksConcat(a: string, b: string, c: char)
    ensures Lacks(a + b, c) <==> Lacks(a, c) && Lacks(b, c)
  {
    if Lacks(a + b, c) {
      assert forall i :: 0 <= i < |a| ==> (a + b)[i] == a[i];
      assert forall i :: 0 <= i < |b| ==> (a + b)[|a| + i] == b[i];
    }
  }

  lemma PlainBounds()
    ensures Pow10(-6) == 0.000001 && Pow10(21) == 1000000000000000000000.0
  {
    assert Pow10(-3) == 0.001;
    assert Pow10(7) == 10000000.0;
    assert Pow10(14) == 100000000000000.0;
  }

  /** The bounds on the number are bounds on the exponent of its first digit. */
  lemma BoundsOnFirstDigit(digits: string, exp: int, magnitude: real)
    requires Normal(digits) && magnitude == Scale(NatOf(digits), exp - |digits| + 1)
    ensures 0.000001 <= magnitude < 1000000000000000000000.0 <==> -6 <= exp <= 20
  {
    FirstDigitBrackets(digits, exp);
    hide Pow10, Scale, NatOf;
    PlainBounds();
    if exp < -6 {
      Pow10Grows(exp + 1, -6);
    } else if exp > 20 {
      Pow10Grows(21, exp);
    } else {
      Pow10Grows(-6, exp);
      Pow10Grows(exp + 1, 21);
    }
  }

  /** How a number with an exponent ends: `e`, a sign that is always there, and at least two digits if positive. */
  ghost predicate EndsInExponent(text: string, exp: int) {
    exists mantissa, digits ::
      && text == mantissa + ((if exp < 0 then "e-" else "e+") + digits)
      && OneDigitMantissa(mantissa)
      && digits != "" && AllDigits(digits) && NatOf(digits) == (if exp < 0 then -exp else exp)
      && (if exp < 0 then digits[0] != '0' else |digits| == 2 || (|digits| > 2 && digits[0] != '0'))
  }

  /** One digit other than 0, alone or with a fraction that does not end in 0. */
  predicate OneDigitMantissa(mantissa: string) {
    && mantissa != "" && '1' <= mantissa[0] <= '9'
    && (|mantissa| > 1 ==> |mantissa| > 2 && mantissa[1] == '.' && AllDigits(mantissa[2..]) && mantissa[|mantissa| - 1] != '0')
  }

  /** No exponent, and no fraction that ends in 0. */
  predicate IsPlain(text: string) {
    Lacks(text, 'e') && (Lacks(text, '.') || (text != "" && text[|text| - 1] != '0'))
  }

  lemma {:induction false} NatTextStarts(n: nat)
    ensures n > 0 ==> NatText(n)[0] != '0'
    ensures |NatText(n)| >= 2 <==> n >= 10
    decreases n
  {
    if n >= 10 {
      NatTextStarts(n / 10);
    }
  }

  lemma DigitsLack(digits: string, c: char)
    requires AllDigits(digits) && !IsDigit(c)
    ensures Lacks(digits, c)
  {
  }

  lemma Fractional(whole: string, frac: string)
    requires AllDigits(whole) && AllDigits(frac) && frac != "" && frac[|frac| - 1] != '0'
    ensures IsPlain(whole + ("." + frac))
  {
    DigitsLack(whole, 'e');
    DigitsLack(frac, 'e');
    LacksConcat(".", frac, 'e');
    LacksConcat(whole, "." + frac, 'e');
  }

  lemma PlainIsPlain(digits: string, exp: int)
    requires Normal(digits)
    ensures IsPlain(PlainDecimal(digits, exp))
  {
    hide NatOf, IsPlain;
    if exp < 0 {
      Fractional("0", Zeros(-exp - 1) + digits);
    } else if |digits| <= exp + 1 {
      WholeIsPlain(digits + Zeros(exp + 1 - |digits|));
    } else {
      Fractional(digits[..exp + 1], digits[exp + 1..]);
    }
  }

  lemma WholeIsPlain(whole: string)
    requires AllDigits(whole)
    ensures IsPlain(whole)
  {
    DigitsLack(whole, 'e');
    DigitsLack(whole, '.');
  }

  lemma MantissaHasOneDigit(digits: string, mantissa: string)
    requires Normal(digits) && mantissa == if |digits| == 1 then digits else digits[..1] + ("." + digits[1..])
    ensures OneDigitMantissa(mantissa)
  {
  }

  lemma ScientificEnds(digits: string, exp: int)
    requires Normal(digits)
    ensures EndsInExponent(ScientificDecimal(digits, exp), exp)
  {
    var mantissa := if |digits| == 1 then digits else digits[..1] + ("." + digits[1..]);
    MantissaHasOneDigit(digits, mantissa);
    hide Normal, OneDigitMantissa, NatOf;
    if exp < 0 {
      NatTextStarts(-exp);
      assert ScientificDecimal(digits, exp) == mantissa + ("e-" + NatText(-exp));
    } else {
      NatTextStarts(exp);
      assert ScientificDecimal(digits, exp) == mantissa + ("e+" + TwoDigits(exp));
    }
  }

  lemma ExponentShows(text: string, exp: int)
    requires EndsInExponent(text, exp)
    ensures !Lacks(text, 'e')
  {
    hide AllDigits, NatOf, OneDigitMantissa;
    var mantissa, digits :| text == mantissa + ((if exp < 0 then "e-" else "e+") + digits);
    var mark := if exp < 0 then "e-" else "e+";
    assert |mark| == 2 && mark[0] == 'e';
    assert text[|mantissa|] == (mark + digits)[0] == mark[0];
  }

  ghost predicate LaidOut(text: string, negative: bool, exp: int) {
    var unsigned := Unsigned(text);
    && StartsWith(text, '-') == negative
    && (Lacks(unsigned, 'e') <==> -6 <= exp <= 20)
    && (if -6 <= exp <= 20 then IsPlain(unsigned) else EndsInExponent(unsigned, exp))
  }

  lemma PlainIsLaidOut(negative: bool, digits: string, exp: int)
    requires Normal(digits) && -6 <= exp <= 20
    ensures LaidOut(Sign(negative) + PlainDecimal(digits, exp), negative, exp)
  {
    PlainIsPlain(digits, exp);
    PlainStarts(digits, exp);
    hide PlainDecimal, Normal;
    UnsignedOf(negative, PlainDecimal(digits, exp));
  }

  lemma ScientificIsLaidOut(negative: bool, digits: string, exp: int)
    requires Normal(digits) && !(-6 <= exp <= 20)
    ensures LaidOut(Sign(negative) + ScientificDecimal(digits, exp), negative, exp)
  {
    ScientificEnds(digits, exp);
    ScientificStarts(digits, exp);
    ExponentShows(ScientificDecimal(digits, exp), exp);
    hide ScientificDecimal, Normal, EndsInExponent;
    UnsignedOf(negative, ScientificDecimal(digits, exp));
  }

  /**
   A nonzero float prints without an exponent exactly if its first digit stands
   for 10^-6 up to 10^20, that is for magnitudes from 0.000001 to below 10^21.
   Otherwise one digit stands before the point, and the exponent has its sign,
   two digits if it is positive, and no padding if it is negative.
   */
  lemma LayoutExactly(s: Spelling)
    requires WellFormed(s)
    ensures LaidOut(GoJsonFloat(Nonzero(s)), s.negative, FirstExponent(s))
    ensures Lacks(Unsigned(GoJsonFloat(Nonzero(s))), 'e') <==> 0.000001 <= Meaning(s).magnitude < 1000000000000000000000.0
  {
    hide *;
    TextOfNonzero(s);
    CoreKeepsValue(s);
    LayoutOfNormal(s.negative, Core(s), FirstExponent(s), Meaning(s).magnitude);
  }

  lemma LayoutOfNormal(negative: bool, digits: string, exp: int, magnitude: real)
    requires Normal(digits) && magnitude == Scale(NatOf(digits), exp - |digits| + 1)
    ensures digits != ""
    ensures LaidOut(NormalText(negative, digits, exp, magnitude), negative, exp)
    ensures Lacks(Unsigned(NormalText(negative, digits, exp, magnitude)), 'e') <==> 0.000001 <= magnitude < 1000000000000000000000.0
  {
    BoundsOnFirstDigit(digits, exp, magnitude);
    hide Normal, PlainDecimal, ScientificDecimal, Scale, NatOf, Unsigned, Lacks, IsPlain, EndsInExponent, Sign;
    if -6 <= exp <= 20 {
      PlainIsLaidOut(negative, digits, exp);
    } else {
      ScientificIsLaidOut(negative, digits, exp);
    }
  }

  lemma PlainStarts(digits: string, exp: int)
    requires Normal(digits)
    ensures PlainDecimal(digits, exp) != "" && IsDigit(PlainDecimal(digits, exp)[0])
  {
  }

  lemma ScientificStarts(digits: string, exp: int)
    requires Normal(digits)
    ensures ScientificDecimal(digits, exp) != "" && IsDigit(ScientificDecimal(digits, exp)[0])
  {
  }

  // ---------------------------------------------------------------------
  // A number is read the same wherever it stands
  // ---------------------------------------------------------------------

  lemma {:induction false} TakeDigitsBefore(s: string, rest: string)
    requires Delimited(rest)
    ensures TakeDigits(s + rest) == (TakeDigits(s).0, TakeDigits(s).1 + rest)
    decreases |s|
  {
    if s == "" {
      EmptyText(rest);
    } else {
      DropHead([s[0]], s[1..] + rest);
      assert (s + rest)[0] == s[0] && (s + rest)[1..] == s[1..] + rest;
      if IsDigit(s[0]) {
        TakeDigitsBefore(s[1..], rest);
      }
    }
  }

  lemma ReadWholeBefore(s: string, rest: string)
    requires ReadWhole(s).Got? && Delimited(rest)
    ensures ReadWhole(s + rest) == Got(ReadWhole(s).value, ReadWhole(s).rest + rest)
  {
    TakeDigitsBefore(s, rest);
    hide TakeDigits;
    assert s != "";
    assert (s + rest)[0] == s[0] && (s + rest)[1..] == s[1..] + rest;
  }

  lemma ReadFractionBefore(s: string, rest: string)
    requires ReadFraction(s).Got? && Delimited(rest)
    ensures ReadFraction(s + rest) == Got(ReadFraction(s).value, ReadFraction(s).rest + rest)
  {
    hide TakeDigits;
    if s == "" {
      EmptyText(rest);
    } else {
      assert (s + rest)[0] == s[0] && (s + rest)[1..] == s[1..] + rest;
      TakeDigitsBefore(s[1..], rest);
    }
  }

  lemma ReadExponentBefore(s: string, rest: string)
    requires ReadExponent(s).Got? && Delimited(rest)
    ensures ReadExponent(s + rest) == Got(ReadExponent(s).value, ReadExponent(s).rest + rest)
  {
    hide TakeDigits, NatOf;
    if s == "" {
      EmptyText(rest);
    } else {
      assert (s + rest)[0] == s[0] && (s + rest)[1..] == s[1..] + rest;
      if s[0] == 'e' || s[0] == 'E' {
        ReadSignedBefore(s[1..], rest);
      }
    }
  }

  lemma ReadSignedBefore(signed: string, rest: string)
    requires Delimited(rest)
    requires TakeDigits(if StartsWith(signed, '-') || StartsWith(signed, '+') then signed[1..] else signed).0 != ""
    ensures StartsWith(signed + rest, '-') == StartsWith(signed, '-') && StartsWith(signed + rest, '+') == StartsWith(signed, '+')
    ensures var unsigned := if StartsWith(signed, '-') || StartsWith(signed, '+') then signed[1..] else signed;
            var longer := if StartsWith(signed, '-') || StartsWith(signed, '+') then (signed + rest)[1..] else signed + rest;
      TakeDigits(longer) == (TakeDigits(unsigned).0, TakeDigits(unsigned).1 + rest)
  {
    assert signed != "";
    hide TakeDigits;
    assert (signed + rest)[0] == signed[0] && (signed + rest)[1..] == signed[1..] + rest;
    TakeDigitsBefore(signed, rest);
    TakeDigitsBefore(signed[1..], rest);
  }

  lemma ReadNumberBefore(s: string, rest: string)
    requires ReadNumber(s).Got? && Delimited(rest)
    ensures ReadNumber(s + rest) == Got(ReadNumber(s).value, ReadNumber(s).rest + rest)
  {
    hide ReadWhole, ReadFraction, ReadExponent, ValueOf;
    var unsigned := if StartsWith(s, '-') then s[1..] else s;
    assert s != "" by {
      if s == "" {
        NothingIsNoNumber();
      }
    }
    assert (s + rest)[0] == s[0] && (s + rest)[1..] == s[1..] + rest;
    ReadWholeBefore(unsigned, rest);
    var afterWhole := ReadWhole(unsigned).rest;
    ReadFractionBefore(afterWhole, rest);
    ReadExponentBefore(ReadFraction(afterWhole).rest, rest);
  }

  lemma NothingIsNoNumber()
    ensures ReadNumber("").Fail?
  {
  }
}

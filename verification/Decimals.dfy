/** Digit strings, powers of ten, and the number grammar of RFC 8259 section 6. */
module Decimals {
  import opened Wrappers

  predicate IsDigit(c: char) {
    '0' <= c <= '9'
  }

  predicate AllDigits(s: string) {
    forall i :: 0 <= i < |s| ==> IsDigit(s[i])
  }

  function DigitOf(c: char): nat
    requires IsDigit(c)
  {
    (c as int) - ('0' as int)
  }

  /** The natural number a digit string spells; the empty string spells zero. */
  function NatOf(s: string): nat
    requires AllDigits(s)
  {
    if s == "" then 0 else 10 * NatOf(s[..|s| - 1]) + DigitOf(s[|s| - 1])
  }

  function Zeros(n: nat): (s: string)
    ensures |s| == n && AllDigits(s)
  {
    if n == 0 then "" else "0" + Zeros(n - 1)
  }

  lemma {:induction false} ZerosAtEnd(n: nat)
    ensures Zeros(n + 1) == Zeros(n) + "0"
    decreases n
  {
    if n > 0 {
      ZerosAtEnd(n - 1);
      Concat("0", Zeros(n - 1), "0");
    }
  }

  lemma Concat(a: string, b: string, c: string)
    ensures (a + b) + c == a + (b + c)
  {
  }

  lemma SplitJoin(s: string, at: nat)
    requires at <= |s|
    ensures s[..at] + s[at..] == s
  {
  }

  lemma EmptyText(s: string)
    ensures "" + s == s && s + "" == s
  {
  }

  lemma DropHead(a: string, b: string)
    ensures (a + b)[|a|..] == b && (a + b)[..|a|] == a
  {
  }

  function TenTo(n: nat): nat {
    if n == 0 then 1 else 10 * TenTo(n - 1)
  }

  /** Ten to any integer power. */
  function Pow10(k: int): real
    decreases if k < 0 then -k else k
  {
    if k == 0 then 1.0
    else if k > 0 then 10.0 * Pow10(k - 1)
    else Pow10(k + 1) / 10.0
  }

  lemma {:induction false} Pow10Positive(k: int)
    ensures Pow10(k) > 0.0
    decreases if k < 0 then -k else k
  {
    if k > 0 {
      Pow10Positive(k - 1);
    } else if k < 0 {
      Pow10Positive(k + 1);
    }
  }

  /** The real number n × 10^k. */
  function Scale(n: nat, k: int): real {
    n as real * Pow10(k)
  }

  lemma PositiveProduct(x: real, y: real)
    requires x > 0.0 && y > 0.0
    ensures x * y > 0.0
  {
  }

  lemma ScalePositive(n: nat, k: int)
    requires n > 0
    ensures Scale(n, k) > 0.0
  {
    hide Pow10;
    Pow10Positive(k);
    PositiveProduct(n as real, Pow10(k));
  }

  lemma ScaleTen(n: nat, k: int)
    ensures Scale(10 * n, k) == Scale(n, k + 1)
  {
    var x, p := n as real, Pow10(k);
    assert (10 * n) as real == 10.0 * x;
    assert Pow10(k + 1) == 10.0 * p;
  }

  lemma ScaleInjective(m: nat, n: nat, k: int)
    requires Scale(m, k) == Scale(n, k)
    ensures m == n
  {
    Pow10Positive(k);
    var p := Pow10(k);
    assert (m as real - n as real) * p == 0.0;
  }

  /** Two scaled naturals that agree differ by a power of ten. */
  lemma {:induction false} ScaleAligned(m: nat, j: int, n: nat, k: int)
    requires j <= k && Scale(m, j) == Scale(n, k)
    ensures m == n * TenTo(k - j)
    decreases k - j
  {
    if j == k {
      ScaleInjective(m, n, k);
    } else {
      ScaleTen(n, k - 1);
      ScaleAligned(m, j, 10 * n, k - 1);
      TenTimes(n, TenTo(k - 1 - j));
    }
  }

  lemma TenTimes(a: nat, b: nat)
    ensures (10 * a) * b == 10 * (a * b) == a * (10 * b)
  {
  }

  lemma {:induction false} LeadingZero(s: string)
    requires AllDigits(s)
    ensures AllDigits("0" + s)
    ensures NatOf("0" + s) == NatOf(s)
    decreases |s|
  {
    if s == "" {
      assert "0" + "" == "0" && "0"[..0] == "";
    } else {
      LeadingZero(s[..|s| - 1]);
      assert ("0" + s)[..|s|] == "0" + s[..|s| - 1];
    }
  }

  lemma {:induction false} LeadingZeros(n: nat, s: string)
    requires AllDigits(s)
    ensures AllDigits(Zeros(n) + s)
    ensures NatOf(Zeros(n) + s) == NatOf(s)
    decreases n
  {
    if n == 0 {
      assert "" + s == s;
    } else {
      LeadingZeros(n - 1, s);
      LeadingZero(Zeros(n - 1) + s);
      Concat("0", Zeros(n - 1), s);
    }
  }

  lemma NatOfAppendZero(s: string)
    requires AllDigits(s)
    ensures AllDigits(s + "0") && NatOf(s + "0") == 10 * NatOf(s)
  {
    DropHead(s, "0");
  }

  /** Dropping trailing zeros and raising the exponent keeps the value. */
  lemma {:induction false} ScaleTrailing(s: string, n: nat, k: int)
    requires AllDigits(s)
    ensures AllDigits(s + Zeros(n))
    ensures Scale(NatOf(s + Zeros(n)), k) == Scale(NatOf(s), k + n)
    decreases n
  {
    hide Scale, NatOf, AllDigits;
    if n == 0 {
      EmptyText(s);
    } else {
      var shorter := s + Zeros(n - 1);
      ScaleTrailing(s, n - 1, k + 1);
      ZerosAtEnd(n - 1);
      Concat(s, Zeros(n - 1), "0");
      NatOfAppendZero(shorter);
      ScaleTen(NatOf(shorter), k);
    }
  }

  /** Decimal digits without leading or trailing zeros. */
  predicate Normal(s: string) {
    AllDigits(s) && s != "" && s[0] != '0' && s[|s| - 1] != '0'
  }

  lemma {:induction false} NatOfPositive(s: string)
    requires AllDigits(s) && s != "" && s[0] != '0'
    ensures NatOf(s) > 0
    decreases |s|
  {
    if |s| > 1 {
      NatOfPositive(s[..|s| - 1]);
    }
  }

  /** Without a leading zero, the number of digits says between which powers of ten the number lies. */
  lemma {:induction false} NatOfBrackets(s: string)
    requires AllDigits(s) && s != "" && s[0] != '0'
    ensures TenTo(|s| - 1) <= NatOf(s) < TenTo(|s|)
    decreases |s|
  {
    var front := s[..|s| - 1];
    if front == "" {
      assert NatOf(front) == 0 && TenTo(0) == 1 && TenTo(1) == 10;
    } else {
      NatOfBrackets(front);
      LastDigitFits(NatOf(front), DigitOf(s[|s| - 1]), TenTo(|front| - 1), TenTo(|front|));
      assert TenTo(|s| - 1) == 10 * TenTo(|front| - 1) && TenTo(|s|) == 10 * TenTo(|front|);
    }
  }

  lemma LastDigitFits(front: nat, digit: nat, low: nat, high: nat)
    requires low <= front < high && digit < 10
    ensures 10 * low <= 10 * front + digit < 10 * high
  {
  }

  lemma {:induction false} ScaleOfTenTo(n: nat, k: int)
    ensures Scale(TenTo(n), k) == Pow10(k + n)
    decreases n
  {
    hide Pow10;
    if n > 0 {
      ScaleOfTenTo(n - 1, k + 1);
      ScaleTen(TenTo(n - 1), k);
    }
  }

  lemma ScaleOrdered(m: nat, n: nat, k: int)
    ensures m <= n ==> Scale(m, k) <= Scale(n, k)
    ensures m < n ==> Scale(m, k) < Scale(n, k)
  {
    hide Pow10;
    Pow10Positive(k);
    ProductOrdered(m as real, n as real, Pow10(k));
  }

  lemma ProductOrdered(x: real, y: real, p: real)
    requires p > 0.0
    ensures x <= y ==> x * p <= y * p
    ensures x < y ==> x * p < y * p
  {
  }

  lemma {:induction false} Pow10Grows(j: int, k: int)
    requires j <= k
    ensures Pow10(j) <= Pow10(k)
    decreases k - j
  {
    if j < k {
      Pow10Positive(k - 1);
      assert Pow10(k) == 10.0 * Pow10(k - 1);
      Pow10Grows(j, k - 1);
    }
  }

  /** `d.ddd × 10^exp` lies between 10^exp and 10^(exp + 1). */
  lemma FirstDigitBrackets(s: string, exp: int)
    requires Normal(s)
    ensures Pow10(exp) <= Scale(NatOf(s), exp - |s| + 1) < Pow10(exp + 1)
  {
    hide Pow10, Scale, NatOf, TenTo;
    var k := exp - |s| + 1;
    NatOfBrackets(s);
    ScaleOrdered(TenTo(|s| - 1), NatOf(s), k);
    ScaleOrdered(NatOf(s), TenTo(|s|), k);
    ScaleOfTenTo(|s| - 1, k);
    ScaleOfTenTo(|s|, k);
  }

  /** Without leading zeros, a digit string is determined by its number. */
  lemma {:induction false} NatOfInjective(a: string, b: string)
    requires AllDigits(a) && a != "" && a[0] != '0'
    requires AllDigits(b) && b != "" && b[0] != '0'
    requires NatOf(a) == NatOf(b)
    ensures a == b
    decreases |a|
  {
    var a', b' := a[..|a| - 1], b[..|b| - 1];
    TensAndOnes(NatOf(a), NatOf(a'), DigitOf(a[|a| - 1]));
    TensAndOnes(NatOf(b), NatOf(b'), DigitOf(b[|b| - 1]));
    assert a[|a| - 1] == b[|b| - 1];
    if a' == "" {
      if b' != "" {
        NatOfPositive(b');
      }
    } else {
      NatOfPositive(a');
      assert b' != "";
      NatOfInjective(a', b');
    }
    assert a == a' + [a[|a| - 1]] && b == b' + [b[|b| - 1]];
  }

  /** One number has one normal form: its digits and its exponent are unique. */
  lemma NormalFormUnique(a: string, j: int, b: string, k: int)
    requires Normal(a) && Normal(b)
    requires Scale(NatOf(a), j) == Scale(NatOf(b), k)
    ensures a == b && j == k
  {
    if j <= k {
      NormalFormOrdered(a, j, b, k);
    } else {
      NormalFormOrdered(b, k, a, j);
    }
  }

  lemma MultipleOfTen(n: nat, t: nat)
    ensures t > 0 ==> (n * TenTo(t)) % 10 == 0
  {
    if t > 0 {
      TenfoldFactor(n, TenTo(t - 1), TenTo(t));
    }
  }

  lemma TenfoldFactor(n: nat, a: nat, b: nat)
    requires b == 10 * a
    ensures (n * b) % 10 == 0
  {
    TenTimes(n, a);
    Tenfold(n * b, n * a);
  }

  lemma Tenfold(m: nat, q: nat)
    requires m == 10 * q
    ensures m % 10 == 0
  {
  }

  lemma LastDigit(a: string)
    requires Normal(a)
    ensures NatOf(a) % 10 != 0
  {
    TensAndOnes(NatOf(a), NatOf(a[..|a| - 1]), DigitOf(a[|a| - 1]));
  }

  lemma TensAndOnes(n: nat, tens: nat, ones: nat)
    requires n == 10 * tens + ones && ones < 10
    ensures n % 10 == ones && n / 10 == tens
  {
  }

  lemma NormalFormOrdered(a: string, j: int, b: string, k: int)
    requires Normal(a) && Normal(b) && j <= k
    requires Scale(NatOf(a), j) == Scale(NatOf(b), k)
    ensures a == b && j == k
  {
    LastDigit(a);
    hide NatOf, Scale;
    ScaleAligned(NatOf(a), j, NatOf(b), k);
    MultipleOfTen(NatOf(b), k - j);
    assert j == k;
    NatOfInjective(a, b);
  }

  // ---------------------------------------------------------------------
  // Writing naturals
  // ---------------------------------------------------------------------

  function DigitChar(d: nat): (c: char)
    requires d < 10
    ensures IsDigit(c) && DigitOf(c) == d
  {
    ('0' as int + d) as char
  }

  function NatText(n: nat): (s: string)
    ensures s != "" && AllDigits(s) && NatOf(s) == n
  {
    if n < 10 then
      assert NatOf([DigitChar(n)][..0]) == 0;
      [DigitChar(n)]
    else
      var s := NatText(n / 10) + [DigitChar(n % 10)];
      assert s[..|s| - 1] == NatText(n / 10);
      s
  }

  // ---------------------------------------------------------------------
  // Reading numbers: RFC 8259 section 6
  // ---------------------------------------------------------------------

  /** A number as text means it: a sign and a magnitude, so that -0 differs from 0. */
  datatype Decimal = Decimal(negative: bool, magnitude: real)

  datatype Read<T> = Fail | Got(value: T, rest: string)

  predicate StartsWith(s: string, c: char) {
    s != "" && s[0] == c
  }

  /** The longest run of digits at the front, and what follows it. */
  function TakeDigits(s: string): (r: (string, string))
    ensures AllDigits(r.0) && |r.0| + |r.1| == |s|
  {
    if s != "" && IsDigit(s[0]) then
      var (digits, rest) := TakeDigits(s[1..]);
      ([s[0]] + digits, rest)
    else
      ("", s)
  }

  lemma {:induction false} TakeDigitsStops(digits: string, rest: string)
    requires AllDigits(digits) && (rest == "" || !IsDigit(rest[0]))
    ensures TakeDigits(digits + rest) == (digits, rest)
    decreases |digits|
  {
    if digits == "" {
      assert digits + rest == rest;
    } else {
      assert (digits + rest)[1..] == digits[1..] + rest;
      TakeDigitsStops(digits[1..], rest);
      assert [digits[0]] + digits[1..] == digits;
    }
  }

  /** int = zero / ( digit1-9 *DIGIT ) */
  function ReadWhole(s: string): (r: Read<string>)
    ensures r.Got? ==> AllDigits(r.value) && |r.rest| < |s|
  {
    if StartsWith(s, '0') then
      Got("0", s[1..])
    else
      var (digits, rest) := TakeDigits(s);
      if digits == "" then Fail else Got(digits, rest)
  }

  /** [ decimal-point 1*DIGIT ] */
  function ReadFraction(s: string): (r: Read<string>)
    ensures r.Got? ==> AllDigits(r.value) && |r.rest| <= |s|
  {
    if StartsWith(s, '.') then
      var (digits, rest) := TakeDigits(s[1..]);
      if digits == "" then Fail else Got(digits, rest)
    else
      Got("", s)
  }

  /** [ e [ minus / plus ] 1*DIGIT ] */
  function ReadExponent(s: string): (r: Read<int>)
    ensures r.Got? ==> |r.rest| <= |s|
  {
    if StartsWith(s, 'e') || StartsWith(s, 'E') then
      var signed := s[1..];
      var negative := StartsWith(signed, '-');
      var (digits, rest) := TakeDigits(if negative || StartsWith(signed, '+') then signed[1..] else signed);
      if digits == "" then Fail else Got(if negative then 0 - NatOf(digits) as int else NatOf(digits) as int, rest)
    else
      Got(0, s)
  }

  function ValueOf(whole: string, frac: string, exp: int): real
    requires AllDigits(whole) && AllDigits(frac)
  {
    Scale(NatOf(whole + frac), exp - |frac|)
  }

  /** number = [ minus ] int [ frac ] [ exp ] */
  function ReadNumber(s: string): (r: Read<Decimal>)
    ensures r.Got? ==> |r.rest| < |s|
  {
    var negative := StartsWith(s, '-');
    match ReadWhole(if negative then s[1..] else s)
    case Fail => Fail
    case Got(whole, afterWhole) =>
      match ReadFraction(afterWhole)
      case Fail => Fail
      case Got(frac, afterFrac) =>
        match ReadExponent(afterFrac)
        case Fail => Fail
        case Got(exp, rest) => Got(Decimal(negative, ValueOf(whole, frac, exp)), rest)
  }
}

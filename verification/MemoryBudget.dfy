/** How many qubits the node advertises for its memory (src/memory_budget.rs). */
module MemoryBudget {
  import opened Wrappers
  import opened Words

  const MAX_WORD: nat := 0xFFFF_FFFF_FFFF_FFFF
  const AMPLITUDE_BYTES: nat := 16
  const BYTES_PER_SITE: nat := 524_288
  const GIB: nat := 0x4000_0000
  const WIDEST: nat := 0xFFFF_FFFF

  /** `u64::saturating_mul` */
  function SatMul(a: nat, b: nat): nat {
    Least(a * b, MAX_WORD)
  }

  /** `u64::saturating_sub` */
  function SatSub(a: nat, b: nat): nat {
    if b <= a then a - b else 0
  }

  lemma {:induction false} Pow2Step(j: nat, k: nat)
    requires j < k
    ensures 2 * Pow2(j) <= Pow2(k)
  {
    Pow2Grows(j + 1, k);
  }

  /** 16 · 2^60 is the first dense state that no 64-bit budget can hold. */
  lemma SixtyQubits()
    ensures 16 * Pow2(59) == 0x8000_0000_0000_0000
  {
    assert Pow2(10) == 1024;
    Pow2Sum(10, 10);
    Pow2Sum(20, 20);
    Pow2Sum(40, 10);
    Pow2Sum(50, 9);
    assert Pow2(9) == 512;
  }

  lemma {:induction false} Pow2Sum(j: nat, k: nat)
    ensures Pow2(j + k) == Pow2(j) * Pow2(k)
    decreases k
  {
    if k > 0 {
      Pow2Sum(j, k - 1);
      DoubledFactor(Pow2(j), Pow2(k - 1));
    }
  }

  lemma DoubledFactor(a: nat, b: nat)
    ensures a * (2 * b) == 2 * (a * b)
  {
  }

  // ---------------------------------------------------------------------
  // The dense width
  // ---------------------------------------------------------------------

  predicate Fits(n: nat, budget: Word64) {
    SatMul(AMPLITUDE_BYTES, Pow2(n)) <= budget
  }

  /** How far the width loop counts from `n` on. */
  function CountFrom(n: nat, budget: Word64): nat
    decreases 63 - n
  {
    if n < 63 && Fits(n, budget) then CountFrom(n + 1, budget) else n
  }

  function DenseWidth(budget: Word64): nat {
    if budget < AMPLITUDE_BYTES then 0 else SatSub(CountFrom(0, budget), 1)
  }

  /** The state of `n` qubits fits the budget, and one more qubit does not. */
  predicate Bracketed(n: nat, budget: Word64) {
    AMPLITUDE_BYTES * Pow2(n) <= budget < AMPLITUDE_BYTES * Pow2(n + 1)
  }

  lemma {:induction false} CountStops(n: nat, budget: Word64)
    requires n <= 63
    requires n > 0 ==> Fits(n - 1, budget)
    ensures var m := CountFrom(n, budget);
      && n <= m <= 63
      && (m > 0 ==> Fits(m - 1, budget))
      && (m < 63 ==> !Fits(m, budget))
    decreases 63 - n
  {
    if n < 63 && Fits(n, budget) {
      CountStops(n + 1, budget);
    }
  }

  /** Below 2^64 - 1 the saturating product is compared as if it were exact. */
  lemma FitsExactly(n: nat, budget: Word64)
    ensures budget < MAX_WORD ==> (Fits(n, budget) <==> AMPLITUDE_BYTES * Pow2(n) <= budget)
    ensures budget == MAX_WORD ==> Fits(n, budget)
  {
  }

  /** The loop finds the widest state that fits, for every budget but the largest number. */
  lemma DenseWidthBrackets(budget: Word64)
    requires budget >= AMPLITUDE_BYTES
    ensures Bracketed(DenseWidth(budget), budget) <==> budget < MAX_WORD
  {
    hide Fits;
    CountStops(0, budget);
    var m := CountFrom(0, budget);
    FitsExactly(0, budget);
    FitsExactly(m, budget);
    assert Pow2(0) == 1;
    SixtyQubits();
    if m > 0 {
      FitsExactly(m - 1, budget);
    }
    assert m > 0;
    if m == 63 {
      Pow2Grows(59, 62);
      Pow2Step(59, 62);
    }
  }

  lemma {:induction false} CountGrows(n: nat, less: Word64, more: Word64)
    requires n <= 63 && less <= more
    ensures CountFrom(n, less) <= CountFrom(n, more)
    decreases 63 - n
  {
    if n < 63 && Fits(n, less) {
      CountGrows(n + 1, less, more);
    } else if n < 63 && Fits(n, more) {
      CountStops(n + 1, more);
    }
  }

  /** A larger budget never advertises fewer qubits. */
  lemma DenseWidthGrows(less: Word64, more: Word64)
    requires less <= more
    ensures DenseWidth(less) <= DenseWidth(more)
  {
    CountGrows(0, less, more);
  }

  method MaxQubitsFromDense(budget: Word64) returns (width: nat)
    ensures width == DenseWidth(budget)
    ensures budget < AMPLITUDE_BYTES ==> width == 0
    ensures AMPLITUDE_BYTES <= budget < MAX_WORD ==> Bracketed(width, budget)
  {
    if budget < AMPLITUDE_BYTES {
      return 0;
    }
    var n := 0;
    while n < 63 && SatMul(AMPLITUDE_BYTES, Pow2(n)) <= budget
      invariant n <= 63
      invariant CountFrom(0, budget) == CountFrom(n, budget)
    {
      n := n + 1;
    }
    DenseWidthBrackets(budget);
    width := SatSub(n, 1);
  }

  // ---------------------------------------------------------------------
  // The MPS width
  // ---------------------------------------------------------------------

  function MpsWidth(budget: Word64): nat {
    if budget < BYTES_PER_SITE then 0 else Least(budget / BYTES_PER_SITE, WIDEST)
  }

  /** As many sites as fit, up to the 32 bits of the bid field; a larger budget never fewer. */
  lemma MpsWidthFits(budget: Word64, more: Word64)
    ensures MpsWidth(budget) * BYTES_PER_SITE <= budget
    ensures MpsWidth(budget) == WIDEST || budget < (MpsWidth(budget) + 1) * BYTES_PER_SITE
    ensures budget <= more ==> MpsWidth(budget) <= MpsWidth(more)
  {
  }

  // ---------------------------------------------------------------------
  // RAM and VRAM
  // ---------------------------------------------------------------------

  function HostReserve(totalGib: nat): nat {
    if totalGib >= 16 then 2 else 1
  }

  function MaxGib(totalGib: nat): nat {
    if totalGib == 0 then 1 else Most(SatSub(totalGib, HostReserve(totalGib)), 1)
  }

  function MaxBytes(totalBytes: Word64): Word64 {
    SatMul(MaxGib(totalBytes / GIB), GIB)
  }

  /** `(g.max(0.0) * GIB) as u64`: truncates, and saturates at the largest number. */
  function RequestedBytes(gib: real): Word64 {
    if gib <= 0.0 then 0 else Least((gib * GIB as real).Floor, MAX_WORD)
  }

  function EffectiveBytes(requestedGib: Option<real>, totalBytes: Word64): Word64 {
    match requestedGib
    case None => MaxBytes(totalBytes)
    case Some(gib) => Least(RequestedBytes(gib), MaxBytes(totalBytes))
  }

  datatype CapSource = Ram | Vram

  function UsableVram(vram: Word64): Word64 {
    Most(SatSub(vram, GIB), AMPLITUDE_BYTES)
  }

  /** The smaller of the RAM budget and the usable VRAM, if an adapter reports any. */
  function Resolve(ram: Word64, vram: Option<Word64>): (Word64, CapSource) {
    match vram
    case None => (ram, Ram)
    case Some(v) => if v > 0 && UsableVram(v) < ram then (UsableVram(v), Vram) else (ram, Ram)
  }

  /** The host's cap leaves the reserve free and is never the one budget the loop gets wrong. */
  lemma CapKeepsReserve(totalBytes: Word64)
    ensures GIB <= MaxBytes(totalBytes) < MAX_WORD
    ensures totalBytes >= 2 * GIB ==> MaxBytes(totalBytes) + HostReserve(totalBytes / GIB) * GIB <= totalBytes
  {
    var gib := totalBytes / GIB;
    assert gib <= 0x3_FFFF_FFFF;
    assert MaxGib(gib) * GIB <= 0x3_FFFF_FFFF * GIB;
  }

  /** The host keeps two GiB for itself from sixteen GiB on, and one below; a budget is never under one GiB. */
  lemma HostKeepsItsReserve(totalBytes: Word64)
    ensures var gib := totalBytes / (1024 * 1024 * 1024);
      MaxBytes(totalBytes) == 1024 * 1024 * 1024 * (if gib >= 16 then gib - 2 else if gib >= 2 then gib - 1 else 1)
  {
    CapKeepsReserve(totalBytes);
  }

  /** Within the host cap and, if there is one, the operator's request in GiB. */
  predicate Within(bytes: nat, requestedGib: Option<real>, totalBytes: Word64) {
    bytes <= MaxBytes(totalBytes) && (requestedGib.Some? ==> bytes == 0 || bytes as real <= requestedGib.value * 1073741824.0)
  }

  /** The budget is the largest number of bytes within both. */
  lemma BudgetIsLargest(requestedGib: Option<real>, totalBytes: Word64)
    ensures var bytes := EffectiveBytes(requestedGib, totalBytes);
      Within(bytes, requestedGib, totalBytes) && forall other: nat :: Within(other, requestedGib, totalBytes) ==> other <= bytes
  {
    CapKeepsReserve(totalBytes);
    hide MaxBytes;
  }

  /** An adapter's memory counts but for one GiB, and never below a single amplitude. */
  lemma AdapterKeepsItsReserve(vram: Word64)
    ensures UsableVram(vram) == if vram >= 1073741824 + 16 then vram - 1073741824 else 16
  {
  }

  /** The advertised dense and MPS widths, and which cap decided. */
  function Advertise(ram: Word64, vram: Option<Word64>): (nat, nat, CapSource) {
    var (bytes, source) := Resolve(ram, vram);
    (DenseWidth(bytes), MpsWidth(bytes), source)
  }

  lemma ResolvedBytes(ram: Word64, vram: Option<Word64>)
    ensures var bytes := Resolve(ram, vram).0;
      && bytes <= ram
      && (vram.Some? && vram.value > 0 ==> bytes <= UsableVram(vram.value))
      && (bytes == ram || (vram.Some? && vram.value > 0 && bytes == UsableVram(vram.value)))
      && (Resolve(ram, vram).1 == Vram <==> bytes < ram)
  {
  }

  /**
   Whatever the operator asks for and the host has: both advertised widths fit
   the requested budget, the host cap and the usable VRAM, and each is the widest
   that fits the smallest of them.
   */
  lemma AdvertisedWidthsFit(requestedGib: Option<real>, totalBytes: Word64, vram: Option<Word64>)
    requires EffectiveBytes(requestedGib, totalBytes) >= AMPLITUDE_BYTES
    ensures var ram := EffectiveBytes(requestedGib, totalBytes);
            var bytes := Resolve(ram, vram).0;
            var (dense, mps, source) := Advertise(ram, vram);
      && bytes <= ram <= MaxBytes(totalBytes)
      && (requestedGib.Some? ==> bytes as real <= requestedGib.value * GIB as real)
      && (vram.Some? && vram.value > 0 ==> bytes <= UsableVram(vram.value))
      && bytes in {ram, if vram.Some? && vram.value > 0 then UsableVram(vram.value) else ram}
      && 16 * Pow2(dense) <= bytes < 16 * Pow2(dense + 1)
      && mps * (128 * 2 * 128 * 16) <= bytes && (mps == 0xFFFF_FFFF || bytes < (mps + 1) * (128 * 2 * 128 * 16))
      && (source == Vram <==> bytes < ram)
  {
    var ram := EffectiveBytes(requestedGib, totalBytes);
    CapKeepsReserve(totalBytes);
    ResolvedBytes(ram, vram);
    var bytes := Resolve(ram, vram).0;
    DenseWidthBrackets(bytes);
    MpsWidthFits(bytes, bytes);
    hide DenseWidth, MpsWidth;
  }
}

/** HFPERCLK, the peripheral clock, and the twelve peripheral sub-clocks it
  * gates (src/cmu/hfperclk.rs). None of them declares `_disable`. */
module CmuHfPerClk {
  import opened CmuRegisters
  import opened CmuClocks

  /** HfPerClk::enable_div<n>, n a power of two up to 512: one write to
    * HFPERCLKDIV that sets HFPERCLKEN and the code of n. */
  method EnableDiv(cmu: Cmu, self: Token, hfclk: Token, n: nat) returns (r: Token)
    requires Typed(self, HfPerClk) && cmu.Valid()
    requires Typed(hfclk, HfClk) && IsClock(hfclk)
    requires IsPow2(n) && n <= 512
    modifies cmu`hfperclkEn, cmu`hfperclkDiv, cmu`trace
    ensures cmu.Valid()
    ensures r == SwitchDivide(HfPerClk, Borrowed(hfclk), U(n)) && Typed(r, HfPerClk)
    ensures WellWired(hfclk) ==> WellWired(r)
    ensures IsClock(r) && Frequency(r) == Frequency(hfclk) / (n as real)
    ensures cmu.hfperclkEn && Pow2(cmu.hfperclkDiv) == n
    ensures cmu.trace == old(cmu.trace) + [Write(HfPerClkDiv)]
  {
    PrescalerCodeFits(n);
    cmu.WriteHfPerClkDiv(true, Log2(n));
    r := SwitchDivide(HfPerClk, Borrowed(hfclk), U(n));
  }

  /** HfPerClk::disable: a write to HFPERCLKDIV that clears HFPERCLKEN; as a
    * `write`, it also returns HFPERCLKDIV to division 1. */
  method Disable(cmu: Cmu, self: Token) returns (r: Token)
    requires Typed(self, HfPerClk) && cmu.Valid()
    modifies cmu`hfperclkEn, cmu`hfperclkDiv, cmu`trace
    ensures cmu.Valid()
    ensures r == SwitchDivide(HfPerClk, NoSource(Off), Off) && !IsClock(r)
    ensures !cmu.hfperclkEn && Pow2(cmu.hfperclkDiv) == 1
    ensures cmu.trace == old(cmu.trace) + [Write(HfPerClkDiv)]
  {
    cmu.WriteHfPerClkDiv(false, 0);
    r := SwitchDivide(HfPerClk, NoSource(Off), Off);
  }

  /** <sub-clock>::enable: sets the sub-clock's HFPERCLKEN0 bit; the sub-clock
    * then runs at the peripheral clock's frequency. */
  method EnableGate(cmu: Cmu, g: PerGate, self: Token, hfperclk: Token) returns (r: Token)
    requires Typed(self, PerGateDomain(g)) && cmu.Valid()
    requires Typed(hfperclk, HfPerClk) && IsClock(hfperclk)
    modifies cmu`hfperclkEn0, cmu`trace
    ensures cmu.Valid()
    ensures r == Switch(PerGateDomain(g), Borrowed(hfperclk)) && Typed(r, PerGateDomain(g))
    ensures WellWired(hfperclk) ==> WellWired(r)
    ensures IsClock(r) && Frequency(r) == Frequency(hfperclk)
    ensures cmu.hfperclkEn0 == old(cmu.hfperclkEn0) + {g}
    ensures cmu.trace == old(cmu.trace) + [Write(HfPerClkEn0)]
  {
    cmu.ModifyHfPerClkEn0(g, true);
    r := Switch(PerGateDomain(g), Borrowed(hfperclk));
  }

  /** <sub-clock>::disable: clears the sub-clock's HFPERCLKEN0 bit. */
  method DisableGate(cmu: Cmu, g: PerGate, self: Token) returns (r: Token)
    requires Typed(self, PerGateDomain(g)) && cmu.Valid()
    modifies cmu`hfperclkEn0, cmu`trace
    ensures cmu.Valid()
    ensures r == Switch(PerGateDomain(g), NoSource(Off)) && !IsClock(r)
    ensures cmu.hfperclkEn0 == old(cmu.hfperclkEn0) - {g}
    ensures cmu.trace == old(cmu.trace) + [Write(HfPerClkEn0)]
  {
    cmu.ModifyHfPerClkEn0(g, false);
    r := Switch(PerGateDomain(g), NoSource(Off));
  }
}

/** HFCORECLK, the core clock, and the sub-clocks it gates for AES, DMA and USB
  * (src/cmu/hfcoreclk.rs). */
module CmuHfCoreClk {
  import opened CmuRegisters
  import opened CmuClocks

  /** HfCoreClk::div<n>, n a power of two up to 512: one write to HFCORECLKDIV
    * with the code of n. The write clears HFCORECLKLEDIV as well. */
  method Div(cmu: Cmu, self: Token, hfclk: Token, n: nat) returns (r: Token)
    requires Typed(self, HfCoreClk) && cmu.Valid()
    requires Typed(hfclk, HfClk) && IsClock(hfclk)
    requires IsPow2(n) && n <= 512
    modifies cmu`hfcoreclkDiv, cmu`hfcoreclkLeDiv, cmu`trace
    ensures cmu.Valid()
    ensures r == SwitchDivide(HfCoreClk, Borrowed(hfclk), U(n)) && Typed(r, HfCoreClk)
    ensures WellWired(hfclk) ==> WellWired(r)
    ensures IsClock(r) && Frequency(r) == Frequency(hfclk) / (n as real)
    ensures Pow2(cmu.hfcoreclkDiv) == n && !cmu.hfcoreclkLeDiv
    ensures cmu.trace == old(cmu.trace) + [Write(HfCoreClkDiv)]
  {
    PrescalerCodeFits(n);
    cmu.WriteHfCoreClkDiv(Log2(n));
    r := SwitchDivide(HfCoreClk, Borrowed(hfclk), U(n));
  }

  /** HfCoreClk::_disable, which its Drop runs, is empty: the core clock is
    * never stopped. */
  method DropHfCoreClk(cmu: Cmu)
    requires cmu.Valid()
    ensures cmu.trace == old(cmu.trace) + DisableEvents(HfCoreClk)
  {
  }

  /** HfCoreClkAes, HfCoreClkDma, HfCoreClkUsb ::enable: sets the sub-clock's
    * HFCORECLKEN0 bit; the sub-clock then runs at the core clock's frequency. */
  method EnableSubclock(cmu: Cmu, g: CoreGate, self: Token, hfcoreclk: Token) returns (r: Token)
    requires IsCoreSubclock(g) && Typed(self, CoreGateDomain(g)) && cmu.Valid()
    requires Typed(hfcoreclk, HfCoreClk) && IsClock(hfcoreclk)
    modifies cmu`hfcoreclkEn0, cmu`trace
    ensures cmu.Valid()
    ensures r == Switch(CoreGateDomain(g), Borrowed(hfcoreclk)) && Typed(r, CoreGateDomain(g))
    ensures WellWired(hfcoreclk) ==> WellWired(r)
    ensures IsClock(r) && Frequency(r) == Frequency(hfcoreclk)
    ensures cmu.hfcoreclkEn0 == old(cmu.hfcoreclkEn0) + {g}
    ensures cmu.trace == old(cmu.trace) + [Write(HfCoreClkEn0)]
  {
    cmu.ModifyHfCoreClkEn0(g, true);
    r := Switch(CoreGateDomain(g), Borrowed(hfcoreclk));
  }

  /** The sub-clocks' `_disable`, which their Drop runs: clears the bit. */
  method DropSubclock(cmu: Cmu, g: CoreGate)
    requires IsCoreSubclock(g) && cmu.Valid()
    modifies cmu`hfcoreclkEn0, cmu`trace
    ensures cmu.Valid()
    ensures cmu.hfcoreclkEn0 == old(cmu.hfcoreclkEn0) - {g}
    ensures cmu.trace == old(cmu.trace) + DisableEvents(CoreGateDomain(g))
  {
    cmu.ModifyHfCoreClkEn0(g, false);
  }

  /** The sub-clocks' `disable`. */
  method DisableSubclock(cmu: Cmu, g: CoreGate, self: Token) returns (r: Token)
    requires IsCoreSubclock(g) && Typed(self, CoreGateDomain(g)) && cmu.Valid()
    modifies cmu`hfcoreclkEn0, cmu`trace
    ensures cmu.Valid()
    ensures r == Switch(CoreGateDomain(g), NoSource(Off)) && !IsClock(r)
    ensures cmu.hfcoreclkEn0 == old(cmu.hfcoreclkEn0) - {g}
    ensures cmu.trace == old(cmu.trace) + DisableEvents(CoreGateDomain(g))
  {
    DropSubclock(cmu, g);
    r := Switch(CoreGateDomain(g), NoSource(Off));
  }
}

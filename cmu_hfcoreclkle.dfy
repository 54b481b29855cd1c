/** HFCORECLKLEDIV, the core clock divided by 2 or 4 for the low-energy
  * peripherals (src/cmu/hfcoreclkle.rs). */
module CmuHfCoreClkLe {
  import opened CmuRegisters
  import opened CmuClocks

  /** HfCoreClkLeDiv::enable_div2 and enable_div4: selects the division in
    * HFCORECLKDIV.HFCORECLKLEDIV, then sets the LE bit of HFCORECLKEN0. */
  method EnableLeDiv(cmu: Cmu, self: Token, hfcoreclk: Token, n: nat) returns (r: Token)
    requires Typed(self, HfCoreClkLeDiv) && cmu.Valid()
    requires Typed(hfcoreclk, HfCoreClk) && IsClock(hfcoreclk)
    requires n == 2 || n == 4
    modifies cmu`hfcoreclkLeDiv, cmu`hfcoreclkEn0, cmu`trace
    ensures cmu.Valid()
    ensures r == SwitchDivide(HfCoreClkLeDiv, Borrowed(hfcoreclk), U(n)) && Typed(r, HfCoreClkLeDiv)
    ensures WellWired(hfcoreclk) ==> WellWired(r)
    ensures IsClock(r) && Frequency(r) == Frequency(hfcoreclk) / (n as real)
    ensures cmu.hfcoreclkLeDiv <==> n == 4
    ensures cmu.hfcoreclkEn0 == old(cmu.hfcoreclkEn0) + {Le}
    ensures cmu.trace == old(cmu.trace) + [Write(HfCoreClkDiv)] + [Write(HfCoreClkEn0)]
  {
    cmu.ModifyHfCoreClkLeDiv(n == 4);
    cmu.ModifyHfCoreClkEn0(Le, true);
    r := SwitchDivide(HfCoreClkLeDiv, Borrowed(hfcoreclk), U(n));
  }

  /** HfCoreClkLeDiv::_disable, which its Drop runs: clears the LE bit. */
  method DropLeDiv(cmu: Cmu)
    requires cmu.Valid()
    modifies cmu`hfcoreclkEn0, cmu`trace
    ensures cmu.Valid()
    ensures cmu.hfcoreclkEn0 == old(cmu.hfcoreclkEn0) - {Le}
    ensures cmu.trace == old(cmu.trace) + DisableEvents(HfCoreClkLeDiv)
  {
    cmu.ModifyHfCoreClkEn0(Le, false);
  }

  /** HfCoreClkLeDiv::disable. */
  method DisableLeDiv(cmu: Cmu, self: Token) returns (r: Token)
    requires Typed(self, HfCoreClkLeDiv) && cmu.Valid()
    modifies cmu`hfcoreclkEn0, cmu`trace
    ensures cmu.Valid()
    ensures r == SwitchDivide(HfCoreClkLeDiv, NoSource(Off), Off) && !IsClock(r)
    ensures cmu.hfcoreclkEn0 == old(cmu.hfcoreclkEn0) - {Le}
    ensures cmu.trace == old(cmu.trace) + DisableEvents(HfCoreClkLeDiv)
  {
    DropLeDiv(cmu);
    r := SwitchDivide(HfCoreClkLeDiv, NoSource(Off), Off);
  }
}

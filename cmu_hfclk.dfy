/** HFCLK, the main high-frequency clock (src/cmu/hfclk.rs). It declares no
  * `_disable` and never waits on the hardware. */
module CmuHfClk {
  import opened CmuRegisters
  import opened CmuClocks

  /** HfClk::div<n>: writes n - 1 to CTRL.HFCLKDIV; the source is kept and only
    * the division changes. */
  method Div(cmu: Cmu, self: Token, n: nat) returns (r: Token)
    requires Typed(self, HfClk) && cmu.Valid()
    requires 1 <= n <= 8
    modifies cmu`hfclkDiv, cmu`trace
    ensures cmu.Valid()
    ensures r == SwitchDivide(HfClk, self.source, U(n)) && Typed(r, HfClk)
    ensures WellWired(self) ==> WellWired(r)
    ensures self.source.Borrowed? && IsClock(self.source.token) ==>
              IsClock(r) && Frequency(r) == Frequency(self.source.token) / (n as real)
    ensures cmu.hfclkDiv == n - 1
    ensures cmu.trace == old(cmu.trace) + [Write(Ctrl)]
  {
    cmu.ModifyHfClkDiv(n - 1);
    r := SwitchDivide(HfClk, self.source, U(n));
  }

  /** HfClk::hfrco, hfxo, lfrco, lfxo and ushfrcodiv: from a running clock of
    * the selected kind only; issues the HFCLKSEL command. The division is kept
    * and only the source changes. */
  method SelectSource(cmu: Cmu, self: Token, sel: HfClkSel, source: Token) returns (r: Token)
    requires Typed(self, HfClk) && cmu.Valid()
    requires Typed(source, HfClkSourceDomain(sel)) && IsClock(source)
    modifies cmu`status, cmu`trace
    ensures cmu.Valid()
    ensures r == SwitchDivide(HfClk, Borrowed(source), self.division) && Typed(r, HfClk)
    ensures WellWired(source) ==> WellWired(r)
    ensures self.division.U? && self.division.n > 0 ==>
              IsClock(r) && Frequency(r) == Frequency(source) / (self.division.n as real)
    ensures cmu.status == old(cmu.status)
    ensures cmu.trace == old(cmu.trace) + [Write(Cmd(HfClkSelect(sel)))]
  {
    cmu.WriteCmd(HfClkSelect(sel));
    r := SwitchDivide(HfClk, Borrowed(source), self.division);
  }
}

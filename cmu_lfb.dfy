/** LFBCLK, low-frequency clock B, and LFBCLKLEUART0, the LEUART0 clock divided
  * from it (src/cmu/lfb.rs). */
module CmuLfb {
  import opened CmuRegisters
  import opened CmuClocks

  /** LfbClk::enable_lfrco, enable_lfxo, enable_ulfrco and enable_hfcoreclklediv:
    * one modify of LFCLKSEL that sets LFB and LFBE to the pair selecting the
    * source. LFBCLK then runs at the source's frequency. */
  method SelectSource(cmu: Cmu, self: Token, src: LfSource, source: Token) returns (r: Token)
    requires Typed(self, LfbClk) && cmu.Valid()
    requires Typed(source, LfSourceDomain(src)) && IsClock(source)
    modifies cmu`lfb, cmu`lfbe, cmu`trace
    ensures cmu.Valid()
    ensures r == Switch(LfbClk, Borrowed(source)) && Typed(r, LfbClk)
    ensures WellWired(source) ==> WellWired(r)
    ensures IsClock(r) && Frequency(r) == Frequency(source)
    ensures (cmu.lfb, cmu.lfbe) == LfSelection(src)
    ensures cmu.trace == old(cmu.trace) + [Write(LfClkSel)]
  {
    var (sel, extended) := LfSelection(src);
    cmu.ModifyLfb(sel, extended);
    r := Switch(LfbClk, Borrowed(source));
  }

  /** LfbClk::_disable, which its Drop runs: LFB disabled and LFBE cleared. */
  method DropLfb(cmu: Cmu)
    requires cmu.Valid()
    modifies cmu`lfb, cmu`lfbe, cmu`trace
    ensures cmu.Valid()
    ensures cmu.lfb == LfDisabled && !cmu.lfbe
    ensures cmu.trace == old(cmu.trace) + DisableEvents(LfbClk)
  {
    cmu.ModifyLfb(LfDisabled, false);
  }

  /** LfbClk::disable. */
  method Disable(cmu: Cmu, self: Token) returns (r: Token)
    requires Typed(self, LfbClk) && cmu.Valid()
    modifies cmu`lfb, cmu`lfbe, cmu`trace
    ensures cmu.Valid()
    ensures r == Switch(LfbClk, NoSource(Off)) && !IsClock(r)
    ensures cmu.lfb == LfDisabled && !cmu.lfbe
    ensures cmu.trace == old(cmu.trace) + DisableEvents(LfbClk)
  {
    DropLfb(cmu);
    r := Switch(LfbClk, NoSource(Off));
  }

  /** LfbClkLeuart0::enable_div<n>, n one of 1, 2, 4, 8: waits for
    * SYNCBUSY.LFBPRESC0 to clear, writes the code of n to LFBPRESC0.LEUART0,
    * waits for SYNCBUSY.LFBCLKEN0 to clear, and sets LFBCLKEN0.LEUART0. */
  method EnableLeuart0(cmu: Cmu, self: Token, lfbclk: Token, n: nat) returns (r: Token)
    requires Typed(self, LfbClkLeuart0) && cmu.Valid()
    requires Typed(lfbclk, LfbClk) && IsClock(lfbclk)
    requires IsPow2(n) && n <= 8
    modifies cmu`lfbPresc0Leuart0, cmu`lfbClkEn0Leuart0, cmu`syncBusy, cmu`trace
    ensures cmu.Valid()
    ensures r == SwitchDivide(LfbClkLeuart0, Borrowed(lfbclk), U(n)) && Typed(r, LfbClkLeuart0)
    ensures WellWired(lfbclk) ==> WellWired(r)
    ensures IsClock(r) && Frequency(r) == Frequency(lfbclk) / (n as real)
    ensures Pow2(cmu.lfbPresc0Leuart0) == n && cmu.lfbClkEn0Leuart0
    ensures cmu.syncBusy == old(cmu.syncBusy) + {SyncLfbPresc0, SyncLfbClkEn0}
    ensures cmu.trace == old(cmu.trace) + [Poll(SyncBusy(SyncLfbPresc0), false)] + [Write(LfbPresc0)]
      + [Poll(SyncBusy(SyncLfbClkEn0), false)] + [Write(LfbClkEn0)]
  {
    PrescalerCodeFits(n);
    WritePrescalerSynced(cmu, Log2(n));
    WriteGateSynced(cmu, true);
    r := SwitchDivide(LfbClkLeuart0, Borrowed(lfbclk), U(n));
  }

  /** LfbClkLeuart0::_disable, which its Drop runs: waits for
    * SYNCBUSY.LFBCLKEN0 to clear, then clears LFBCLKEN0.LEUART0. */
  method DropLeuart0(cmu: Cmu)
    requires cmu.Valid()
    modifies cmu`lfbClkEn0Leuart0, cmu`syncBusy, cmu`trace
    ensures cmu.Valid()
    ensures !cmu.lfbClkEn0Leuart0
    ensures cmu.syncBusy == old(cmu.syncBusy) + {SyncLfbClkEn0}
    ensures cmu.trace == old(cmu.trace) + DisableEvents(LfbClkLeuart0)
  {
    WriteGateSynced(cmu, false);
  }

  /** LfbClkLeuart0::disable. */
  method DisableLeuart0(cmu: Cmu, self: Token) returns (r: Token)
    requires Typed(self, LfbClkLeuart0) && cmu.Valid()
    modifies cmu`lfbClkEn0Leuart0, cmu`syncBusy, cmu`trace
    ensures cmu.Valid()
    ensures r == SwitchDivide(LfbClkLeuart0, NoSource(Off), Off) && !IsClock(r)
    ensures !cmu.lfbClkEn0Leuart0
    ensures cmu.syncBusy == old(cmu.syncBusy) + {SyncLfbClkEn0}
    ensures cmu.trace == old(cmu.trace) + DisableEvents(LfbClkLeuart0)
  {
    DropLeuart0(cmu);
    r := SwitchDivide(LfbClkLeuart0, NoSource(Off), Off);
  }

  /** The busy-wait on SYNCBUSY.LFBPRESC0 and the write of LFBPRESC0.LEUART0 that
    * follows it. The write leaves its SYNCBUSY bit set. */
  method WritePrescalerSynced(cmu: Cmu, code: nat)
    requires cmu.Valid() && code < 4
    modifies cmu`lfbPresc0Leuart0, cmu`syncBusy, cmu`trace
    ensures cmu.Valid()
    ensures cmu.lfbPresc0Leuart0 == code
    ensures cmu.syncBusy == old(cmu.syncBusy) + {SyncLfbPresc0}
    ensures cmu.trace == old(cmu.trace) + [Poll(SyncBusy(SyncLfbPresc0), false)] + [Write(LfbPresc0)]
  {
    cmu.WaitClear(SyncLfbPresc0);
    cmu.WriteLfbPresc0(code);
  }

  /** The busy-wait on SYNCBUSY.LFBCLKEN0 and the write of LFBCLKEN0.LEUART0 that
    * follows it. The write leaves its SYNCBUSY bit set. */
  method WriteGateSynced(cmu: Cmu, on: bool)
    requires cmu.Valid()
    modifies cmu`lfbClkEn0Leuart0, cmu`syncBusy, cmu`trace
    ensures cmu.Valid()
    ensures cmu.lfbClkEn0Leuart0 == on
    ensures cmu.syncBusy == old(cmu.syncBusy) + {SyncLfbClkEn0}
    ensures cmu.trace == old(cmu.trace) + [Poll(SyncBusy(SyncLfbClkEn0), false)] + [Write(LfbClkEn0)]
  {
    cmu.WaitClear(SyncLfbClkEn0);
    cmu.WriteLfbClkEn0(on);
  }
}

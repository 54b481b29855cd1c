/** LFCCLK, low-frequency clock C, and LFCCLKUSBLE, the USB low-energy clock it
  * gates (src/cmu/lfc.rs). */
module CmuLfc {
  import opened CmuRegisters
  import opened CmuClocks

  /** LfcClk::enable_lfrco and enable_lfxo: one modify of LFCLKSEL.LFC. LFCCLK
    * then runs at the source's frequency. */
  method SelectSource(cmu: Cmu, self: Token, src: LfcSource, source: Token) returns (r: Token)
    requires Typed(self, LfcClk) && cmu.Valid()
    requires Typed(source, LfcSourceDomain(src)) && IsClock(source)
    modifies cmu`lfc, cmu`trace
    ensures cmu.Valid()
    ensures r == Switch(LfcClk, Borrowed(source)) && Typed(r, LfcClk)
    ensures WellWired(source) ==> WellWired(r)
    ensures IsClock(r) && Frequency(r) == Frequency(source)
    ensures cmu.lfc == LfcSelection(src) && cmu.lfc != LfcDisabled
    ensures cmu.trace == old(cmu.trace) + [Write(LfClkSel)]
  {
    cmu.ModifyLfc(LfcSelection(src));
    r := Switch(LfcClk, Borrowed(source));
  }

  /** LfcClk::_disable, which its Drop runs: LFC disabled. */
  method DropLfc(cmu: Cmu)
    requires cmu.Valid()
    modifies cmu`lfc, cmu`trace
    ensures cmu.Valid()
    ensures cmu.lfc == LfcDisabled
    ensures cmu.trace == old(cmu.trace) + DisableEvents(LfcClk)
  {
    cmu.ModifyLfc(LfcDisabled);
  }

  /** LfcClk::disable. */
  method Disable(cmu: Cmu, self: Token) returns (r: Token)
    requires Typed(self, LfcClk) && cmu.Valid()
    modifies cmu`lfc, cmu`trace
    ensures cmu.Valid()
    ensures r == Switch(LfcClk, NoSource(Off)) && !IsClock(r)
    ensures cmu.lfc == LfcDisabled
    ensures cmu.trace == old(cmu.trace) + DisableEvents(LfcClk)
  {
    DropLfc(cmu);
    r := Switch(LfcClk, NoSource(Off));
  }

  /** LfcClkUsbLe::enable: waits for SYNCBUSY.LFCCLKEN0 to clear, then sets
    * LFCCLKEN0.USBLE. */
  method EnableUsbLe(cmu: Cmu, self: Token, lfcclk: Token) returns (r: Token)
    requires Typed(self, LfcClkUsbLe) && cmu.Valid()
    requires Typed(lfcclk, LfcClk) && IsClock(lfcclk)
    modifies cmu`lfcClkEn0UsbLe, cmu`syncBusy, cmu`trace
    ensures cmu.Valid()
    ensures r == Switch(LfcClkUsbLe, Borrowed(lfcclk)) && Typed(r, LfcClkUsbLe)
    ensures WellWired(lfcclk) ==> WellWired(r)
    ensures IsClock(r) && Frequency(r) == Frequency(lfcclk)
    ensures cmu.lfcClkEn0UsbLe
    ensures cmu.syncBusy == old(cmu.syncBusy) + {SyncLfcClkEn0}
    ensures cmu.trace == old(cmu.trace) + [Poll(SyncBusy(SyncLfcClkEn0), false)] + [Write(LfcClkEn0)]
  {
    cmu.WaitClear(SyncLfcClkEn0);
    cmu.WriteLfcClkEn0(true);
    r := Switch(LfcClkUsbLe, Borrowed(lfcclk));
  }

  /** LfcClkUsbLe::_disable, which its Drop runs: waits for SYNCBUSY.LFCCLKEN0
    * to clear, then clears LFCCLKEN0.USBLE. */
  method DropUsbLe(cmu: Cmu)
    requires cmu.Valid()
    modifies cmu`lfcClkEn0UsbLe, cmu`syncBusy, cmu`trace
    ensures cmu.Valid()
    ensures !cmu.lfcClkEn0UsbLe
    ensures cmu.syncBusy == old(cmu.syncBusy) + {SyncLfcClkEn0}
    ensures cmu.trace == old(cmu.trace) + DisableEvents(LfcClkUsbLe)
  {
    cmu.WaitClear(SyncLfcClkEn0);
    cmu.WriteLfcClkEn0(false);
  }

  /** LfcClkUsbLe::disable. */
  method DisableUsbLe(cmu: Cmu, self: Token) returns (r: Token)
    requires Typed(self, LfcClkUsbLe) && cmu.Valid()
    modifies cmu`lfcClkEn0UsbLe, cmu`syncBusy, cmu`trace
    ensures cmu.Valid()
    ensures r == Switch(LfcClkUsbLe, NoSource(Off)) && !IsClock(r)
    ensures !cmu.lfcClkEn0UsbLe
    ensures cmu.syncBusy == old(cmu.syncBusy) + {SyncLfcClkEn0}
    ensures cmu.trace == old(cmu.trace) + DisableEvents(LfcClkUsbLe)
  {
    DropUsbLe(cmu);
    r := Switch(LfcClkUsbLe, NoSource(Off));
  }
}

/** LFACLK, low-frequency clock A, and LFACLKRTC, the real-time counter's clock
  * divided from it (src/cmu/lfa.rs). Neither declares `_disable`. */
module CmuLfa {
  import opened CmuRegisters
  import opened CmuClocks

  /** LfaClk::enable_lfrco, enable_lfxo, enable_ulfrco and enable_hfcoreclklediv:
    * one modify of LFCLKSEL that sets LFA and LFAE to the pair selecting the
    * source. LFACLK then runs at the source's frequency. */
  method SelectSource(cmu: Cmu, self: Token, src: LfSource, source: Token) returns (r: Token)
    requires Typed(self, LfaClk) && cmu.Valid()
    requires Typed(source, LfSourceDomain(src)) && IsClock(source)
    modifies cmu`lfa, cmu`lfae, cmu`trace
    ensures cmu.Valid()
    ensures r == Switch(LfaClk, Borrowed(source)) && Typed(r, LfaClk)
    ensures WellWired(source) ==> WellWired(r)
    ensures IsClock(r) && Frequency(r) == Frequency(source)
    ensures (cmu.lfa, cmu.lfae) == LfSelection(src)
    ensures cmu.trace == old(cmu.trace) + [Write(LfClkSel)]
  {
    var (sel, extended) := LfSelection(src);
    cmu.ModifyLfa(sel, extended);
    r := Switch(LfaClk, Borrowed(source));
  }

  /** LfaClk::disable: LFA disabled and LFAE cleared. */
  method Disable(cmu: Cmu, self: Token) returns (r: Token)
    requires Typed(self, LfaClk) && cmu.Valid()
    modifies cmu`lfa, cmu`lfae, cmu`trace
    ensures cmu.Valid()
    ensures r == Switch(LfaClk, NoSource(Off)) && !IsClock(r)
    ensures cmu.lfa == LfDisabled && !cmu.lfae
    ensures cmu.trace == old(cmu.trace) + [Write(LfClkSel)]
  {
    cmu.ModifyLfa(LfDisabled, false);
    r := Switch(LfaClk, NoSource(Off));
  }

  /** LfaClkRtc::enable_div<n>, n a power of two up to 32768: waits for
    * SYNCBUSY.LFAPRESC0 to clear, writes the code of n to LFAPRESC0.RTC, waits
    * for SYNCBUSY.LFACLKEN0 to clear, and sets LFACLKEN0.RTC. Both writes leave
    * their SYNCBUSY bit set while the low-frequency domain takes them. */
  method EnableRtc(cmu: Cmu, self: Token, lfaclk: Token, n: nat) returns (r: Token)
    requires Typed(self, LfaClkRtc) && cmu.Valid()
    requires Typed(lfaclk, LfaClk) && IsClock(lfaclk)
    requires IsPow2(n) && n <= 32768
    modifies cmu`lfaPresc0Rtc, cmu`lfaClkEn0Rtc, cmu`syncBusy, cmu`trace
    ensures cmu.Valid()
    ensures r == SwitchDivide(LfaClkRtc, Borrowed(lfaclk), U(n)) && Typed(r, LfaClkRtc)
    ensures WellWired(lfaclk) ==> WellWired(r)
    ensures IsClock(r) && Frequency(r) == Frequency(lfaclk) / (n as real)
    ensures Pow2(cmu.lfaPresc0Rtc) == n && cmu.lfaClkEn0Rtc
    ensures cmu.syncBusy == old(cmu.syncBusy) + {SyncLfaPresc0, SyncLfaClkEn0}
    ensures cmu.trace == old(cmu.trace) + [Poll(SyncBusy(SyncLfaPresc0), false)] + [Write(LfaPresc0)]
      + [Poll(SyncBusy(SyncLfaClkEn0), false)] + [Write(LfaClkEn0)]
  {
    PrescalerCodeFits(n);
    WritePrescalerSynced(cmu, Log2(n));
    WriteGateSynced(cmu, true);
    r := SwitchDivide(LfaClkRtc, Borrowed(lfaclk), U(n));
  }

  /** LfaClkRtc::disable: waits for SYNCBUSY.LFACLKEN0 to clear, then clears
    * LFACLKEN0.RTC. */
  method DisableRtc(cmu: Cmu, self: Token) returns (r: Token)
    requires Typed(self, LfaClkRtc) && cmu.Valid()
    modifies cmu`lfaClkEn0Rtc, cmu`syncBusy, cmu`trace
    ensures cmu.Valid()
    ensures r == SwitchDivide(LfaClkRtc, NoSource(Off), Off) && !IsClock(r)
    ensures !cmu.lfaClkEn0Rtc
    ensures cmu.syncBusy == old(cmu.syncBusy) + {SyncLfaClkEn0}
    ensures cmu.trace == old(cmu.trace) + [Poll(SyncBusy(SyncLfaClkEn0), false)] + [Write(LfaClkEn0)]
  {
    WriteGateSynced(cmu, false);
    r := SwitchDivide(LfaClkRtc, NoSource(Off), Off);
  }

  /** The busy-wait on SYNCBUSY.LFAPRESC0 and the write of LFAPRESC0.RTC that
    * follows it. The write leaves its SYNCBUSY bit set. */
  method WritePrescalerSynced(cmu: Cmu, code: nat)
    requires cmu.Valid() && code < 16
    modifies cmu`lfaPresc0Rtc, cmu`syncBusy, cmu`trace
    ensures cmu.Valid()
    ensures cmu.lfaPresc0Rtc == code
    ensures cmu.syncBusy == old(cmu.syncBusy) + {SyncLfaPresc0}
    ensures cmu.trace == old(cmu.trace) + [Poll(SyncBusy(SyncLfaPresc0), false)] + [Write(LfaPresc0)]
  {
    cmu.WaitClear(SyncLfaPresc0);
    cmu.WriteLfaPresc0(code);
  }

  /** The busy-wait on SYNCBUSY.LFACLKEN0 and the write of LFACLKEN0.RTC that
    * follows it. The write leaves its SYNCBUSY bit set. */
  method WriteGateSynced(cmu: Cmu, on: bool)
    requires cmu.Valid()
    modifies cmu`lfaClkEn0Rtc, cmu`syncBusy, cmu`trace
    ensures cmu.Valid()
    ensures cmu.lfaClkEn0Rtc == on
    ensures cmu.syncBusy == old(cmu.syncBusy) + {SyncLfaClkEn0}
    ensures cmu.trace == old(cmu.trace) + [Poll(SyncBusy(SyncLfaClkEn0), false)] + [Write(LfaClkEn0)]
  {
    cmu.WaitClear(SyncLfaClkEn0);
    cmu.WriteLfaClkEn0(on);
  }
}

/** HFCORECLKUSBC, the clock of the USB core, taken from LFXO, LFRCO or USHFRCO
  * (src/cmu/hfcoreclkusbc.rs). */
module CmuHfCoreClkUsbC {
  import opened CmuRegisters
  import opened CmuClocks

  /** HfCoreClkUsbC::enable_lfxo, enable_lfrco and enable_ushfrco: issues the
    * USBCCLKSEL command, sets the USBC bit of HFCORECLKEN0, and returns once
    * STATUS reports the new source selected. Afterwards exactly that source's
    * selection bit is set. */
  method EnableUsbC(cmu: Cmu, self: Token, sel: UsbcClkSel, source: Token) returns (r: Token)
    requires Typed(self, HfCoreClkUsbC) && cmu.Valid()
    requires Typed(source, UsbcSourceDomain(sel)) && IsClock(source)
    modifies cmu`status, cmu`hfcoreclkEn0, cmu`trace
    ensures cmu.Valid()
    ensures r == Switch(HfCoreClkUsbC, Borrowed(source)) && Typed(r, HfCoreClkUsbC)
    ensures WellWired(source) ==> WellWired(r)
    ensures IsClock(r) && Frequency(r) == Frequency(source)
    ensures cmu.status * UsbcSelectedBits == {UsbcSelectedBit(sel)}
    ensures cmu.status - UsbcSelectedBits == old(cmu.status) - UsbcSelectedBits
    ensures cmu.hfcoreclkEn0 == old(cmu.hfcoreclkEn0) + {UsbC}
    ensures cmu.trace == old(cmu.trace) + [Write(Cmd(UsbcClkSelect(sel)))] + [Write(HfCoreClkEn0)]
      + [Poll(Status(UsbcSelectedBit(sel)), true)]
  {
    cmu.WriteCmd(UsbcClkSelect(sel));
    cmu.ModifyHfCoreClkEn0(UsbC, true);
    cmu.WaitSet(UsbcSelectedBit(sel));
    r := Switch(HfCoreClkUsbC, Borrowed(source));
  }

  /** HfCoreClkUsbC::_disable, which its Drop runs: clears the USBC bit. */
  method DropUsbC(cmu: Cmu)
    requires cmu.Valid()
    modifies cmu`hfcoreclkEn0, cmu`trace
    ensures cmu.Valid()
    ensures cmu.hfcoreclkEn0 == old(cmu.hfcoreclkEn0) - {UsbC}
    ensures cmu.trace == old(cmu.trace) + DisableEvents(HfCoreClkUsbC)
  {
    cmu.ModifyHfCoreClkEn0(UsbC, false);
  }

  /** HfCoreClkUsbC::disable. */
  method DisableUsbC(cmu: Cmu, self: Token) returns (r: Token)
    requires Typed(self, HfCoreClkUsbC) && cmu.Valid()
    modifies cmu`hfcoreclkEn0, cmu`trace
    ensures cmu.Valid()
    ensures r == Switch(HfCoreClkUsbC, NoSource(Off)) && !IsClock(r)
    ensures cmu.hfcoreclkEn0 == old(cmu.hfcoreclkEn0) - {UsbC}
    ensures cmu.trace == old(cmu.trace) + DisableEvents(HfCoreClkUsbC)
  {
    DropUsbC(cmu);
    r := Switch(HfCoreClkUsbC, NoSource(Off));
  }
}

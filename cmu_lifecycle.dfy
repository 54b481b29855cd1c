/** How a clock token ends (src/cmu/macros.rs): dropped, which runs its
  * `_disable`, or finalized, which forgets it and touches no register. A state
  * transition also forgets the token it consumes, so no transition issues a
  * disable of its own; the transition methods' traces show exactly that. */
module CmuLifecycle {
  import opened CmuRegisters
  import opened CmuClocks
  import opened Devices
  import CmuHfrco
  import CmuXo
  import CmuHfCoreClk
  import CmuHfCoreClkLe
  import CmuHfCoreClkUsbC
  import CmuLfb
  import CmuLfc

  /** What a scope holds of a clock: the token itself, or its finalized form. */
  datatype Holding = Owned(token: Token) | Locked(finalized: Finalized<Token>)

  /** FinalizeDevice::finalize on a clock: `Finalized::new` of the token. Being a
    * function, it reads and writes no register. */
  function Finalize(t: Token): (h: Holding)
    ensures h.Locked? && GetRef(h.finalized) == t
  {
    Locked(New(t))
  }

  /** The STATUS ready flag the `_disable` of clock `d` clears: an oscillator's
    * own, and none for any other clock. */
  function ReadyCleared(d: Domain): set<StatusBit>
  {
    if d == HfRco then {HfrcoRdy}
    else if d == AuxHfRco then {AuxHfrcoRdy}
    else if d == HfXo then {HfxoRdy}
    else if d == LfXo then {LfxoRdy}
    else {}
  }

  /** The HFCORECLKEN0 bit the `_disable` of clock `d` clears: a core
    * subclock's own, and none for any other clock. */
  function GateCleared(d: Domain): set<CoreGate>
  {
    if d == HfCoreClkAes then {Aes}
    else if d == HfCoreClkDma then {Dma}
    else if d == HfCoreClkUsb then {Usb}
    else if d == HfCoreClkLeDiv then {Le}
    else if d == HfCoreClkUsbC then {UsbC}
    else {}
  }

  /** The SYNCBUSY flag the `_disable` of clock `d` raises: the one of the LF
    * enable register it writes, and none for any other clock. */
  function SyncRaised(d: Domain): set<SyncBit>
  {
    if d == LfbClkLeuart0 then {SyncLfbClkEn0}
    else if d == LfcClkUsbLe then {SyncLfcClkEn0}
    else {}
  }

  /** The register state after the `_disable` of clock `d`, against the state
    * before it: each clock turns off exactly its own oscillator, gate, LF
    * selection or LF enable bit, and every other field Drop may write keeps
    * its value. */
  twostate predicate DisableEffect(cmu: Cmu, d: Domain)
    reads cmu
  {
    && cmu.status == old(cmu.status) - ReadyCleared(d)
    && cmu.hfcoreclkEn0 == old(cmu.hfcoreclkEn0) - GateCleared(d)
    && cmu.lfb == (if d == LfbClk then LfDisabled else old(cmu.lfb))
    && cmu.lfbe == (old(cmu.lfbe) && d != LfbClk)
    && cmu.lfc == (if d == LfcClk then LfcDisabled else old(cmu.lfc))
    && cmu.lfbClkEn0Leuart0 == (old(cmu.lfbClkEn0Leuart0) && d != LfbClkLeuart0)
    && cmu.lfcClkEn0UsbLe == (old(cmu.lfcClkEn0UsbLe) && d != LfcClkUsbLe)
    && cmu.syncBusy == old(cmu.syncBusy) + SyncRaised(d)
  }

  /** Drop for a clock that declares `_disable`: runs it, once, and turns off
    * that clock and nothing else. */
  method Drop(cmu: Cmu, t: Token)
    requires cmu.Valid() && HasDestructor(t.domain)
    modifies cmu`status, cmu`hfcoreclkEn0, cmu`lfb, cmu`lfbe, cmu`lfc
    modifies cmu`lfbClkEn0Leuart0, cmu`lfcClkEn0UsbLe, cmu`syncBusy, cmu`trace
    ensures cmu.Valid()
    ensures DisableEffect(cmu, t.domain)
    ensures cmu.trace == old(cmu.trace) + DisableEvents(t.domain)
  {
    var d := t.domain;
    if d == HfRco || d == AuxHfRco || d == HfXo || d == LfXo {
      DropOscillator(cmu, d);
    } else if d == LfbClk || d == LfbClkLeuart0 || d == LfcClk || d == LfcClkUsbLe {
      DropLf(cmu, d);
    } else {
      DropCore(cmu, d);
    }
  }

  /** Drop for the four oscillators that declare `_disable`. */
  method DropOscillator(cmu: Cmu, d: Domain)
    requires cmu.Valid() && (d == HfRco || d == AuxHfRco || d == HfXo || d == LfXo)
    modifies cmu`status, cmu`trace
    ensures cmu.Valid()
    ensures cmu.status == old(cmu.status) - ReadyCleared(d)
    ensures cmu.trace == old(cmu.trace) + DisableEvents(d)
  {
    if d == HfRco {
      CmuHfrco.DropHfRco(cmu);
    } else if d == AuxHfRco {
      CmuHfrco.DropAuxHfRco(cmu);
    } else if d == HfXo {
      CmuXo.DropHfXo(cmu);
    } else {
      CmuXo.DropLfXo(cmu);
    }
  }

  /** Drop for HFCORECLK and the core subclocks that declare `_disable`. */
  method DropCore(cmu: Cmu, d: Domain)
    requires cmu.Valid() && HasDestructor(d)
    requires !(d == HfRco || d == AuxHfRco || d == HfXo || d == LfXo)
    requires !(d == LfbClk || d == LfbClkLeuart0 || d == LfcClk || d == LfcClkUsbLe)
    modifies cmu`hfcoreclkEn0, cmu`trace
    ensures cmu.Valid()
    ensures cmu.hfcoreclkEn0 == old(cmu.hfcoreclkEn0) - GateCleared(d)
    ensures cmu.trace == old(cmu.trace) + DisableEvents(d)
  {
    if d == HfCoreClk {
      CmuHfCoreClk.DropHfCoreClk(cmu);
    } else if d == HfCoreClkAes {
      CmuHfCoreClk.DropSubclock(cmu, Aes);
    } else if d == HfCoreClkDma {
      CmuHfCoreClk.DropSubclock(cmu, Dma);
    } else if d == HfCoreClkUsb {
      CmuHfCoreClk.DropSubclock(cmu, Usb);
    } else if d == HfCoreClkLeDiv {
      CmuHfCoreClkLe.DropLeDiv(cmu);
    } else {
      CmuHfCoreClkUsbC.DropUsbC(cmu);
    }
  }

  /** Drop for the LF branches and LF peripheral clocks that declare `_disable`. */
  method DropLf(cmu: Cmu, d: Domain)
    requires cmu.Valid() && (d == LfbClk || d == LfbClkLeuart0 || d == LfcClk || d == LfcClkUsbLe)
    modifies cmu`lfb, cmu`lfbe, cmu`lfc, cmu`lfbClkEn0Leuart0, cmu`lfcClkEn0UsbLe
    modifies cmu`syncBusy, cmu`trace
    ensures cmu.Valid()
    ensures cmu.lfb == (if d == LfbClk then LfDisabled else old(cmu.lfb))
    ensures cmu.lfbe == (old(cmu.lfbe) && d != LfbClk)
    ensures cmu.lfc == (if d == LfcClk then LfcDisabled else old(cmu.lfc))
    ensures cmu.lfbClkEn0Leuart0 == (old(cmu.lfbClkEn0Leuart0) && d != LfbClkLeuart0)
    ensures cmu.lfcClkEn0UsbLe == (old(cmu.lfcClkEn0UsbLe) && d != LfcClkUsbLe)
    ensures cmu.syncBusy == old(cmu.syncBusy) + SyncRaised(d)
    ensures cmu.trace == old(cmu.trace) + DisableEvents(d)
  {
    if d == LfbClk {
      CmuLfb.DropLfb(cmu);
    } else if d == LfbClkLeuart0 {
      CmuLfb.DropLeuart0(cmu);
    } else if d == LfcClk {
      CmuLfc.DropLfc(cmu);
    } else {
      CmuLfc.DropUsbLe(cmu);
    }
  }

  /** The end of a holding's scope: an owned token is dropped, a finalized one
    * is left alone. */
  method EndOfScope(cmu: Cmu, h: Holding)
    requires cmu.Valid() && (h.Owned? ==> HasDestructor(h.token.domain))
    modifies cmu`status, cmu`hfcoreclkEn0, cmu`lfb, cmu`lfbe, cmu`lfc
    modifies cmu`lfbClkEn0Leuart0, cmu`lfcClkEn0UsbLe, cmu`syncBusy, cmu`trace
    ensures cmu.Valid()
    ensures h.Owned? ==> DisableEffect(cmu, h.token.domain)
    ensures h.Owned? ==> cmu.trace == old(cmu.trace) + DisableEvents(h.token.domain)
    ensures h.Locked? ==> unchanged(cmu)
  {
    if h.Owned? {
      Drop(cmu, h.token);
    }
  }
}

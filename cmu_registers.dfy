/** The CMU register block (section 11.5 of the EFM32HG reference manual) as the
  * driver sees it through its `write`, `modify` and `read` accessors.
  *
  * Each register field the driver touches is a field of the class `Cmu`.
  * A ghost `trace` records every register access in program order: a `Write`
  * names the register written, a `Poll` names the flag a busy-wait loop waited on
  * and the value it waited for. A `write` resets the register's other fields to
  * their reset value (zero). A `modify` changes only the fields it names. */
module CmuRegisters {
  import opened Wrappers

  /** HFRCOCTRL.BAND and AUXHFRCOCTRL.BAND. */
  datatype RcBand = Band1MHz | Band7MHz | Band11MHz | Band14MHz | Band21MHz

  /** USHFRCOCONF.BAND. */
  datatype UsBand = Band24MHz | Band48MHz

  /** The oscillators OSCENCMD starts and stops. */
  datatype Oscillator = Hfrco | AuxHfrco | UsHfrco | Lfrco | Hfxo | Lfxo

  /** The commands written to OSCENCMD: `<osc>EN` and `<osc>DIS`. */
  datatype OscCommand = Enable(osc: Oscillator) | Disable(osc: Oscillator)

  /** CMD.HFCLKSEL codes. */
  datatype HfClkSel = SelHfrco | SelHfxo | SelLfrco | SelLfxo | SelUsHfrcoDiv2

  /** CMD.USBCCLKSEL codes. */
  datatype UsbcClkSel = SelUsbcLfxo | SelUsbcLfrco | SelUsbcUsHfrco

  /** The commands written to CMD. */
  datatype ClockCommand = HfClkSelect(hfclk: HfClkSel) | UsbcClkSelect(usbc: UsbcClkSel)

  /** LFCLKSEL.LFA and LFCLKSEL.LFB codes. */
  datatype LfSel = LfDisabled | LfLfrco | LfLfxo | LfHfCoreClkLeDiv2

  /** LFCLKSEL.LFC codes. */
  datatype LfcSel = LfcDisabled | LfcLfrco | LfcLfxo

  /** The HFCORECLKEN0 bits the driver sets and clears. */
  datatype CoreGate = Aes | Dma | Le | Usb | UsbC

  /** The HFPERCLKEN0 bits the driver sets and clears. */
  datatype PerGate = Timer0 | Timer1 | Timer2 | Usart0 | Usart1 | Acmp0 | Prs | Idac0 | Gpio | Vcmp | Adc0 | I2c0

  /** The STATUS bits the driver waits on. */
  datatype StatusBit =
    | HfrcoRdy | AuxHfrcoRdy | UsHfrcoRdy | LfrcoRdy | HfxoRdy | LfxoRdy
    | UsbcLfxoSel | UsbcLfrcoSel | UsbcUsHfrcoSel

  /** The SYNCBUSY bits: one per register of the low-frequency domain that is
    * synchronised to its (slow) clock. */
  datatype SyncBit = SyncLfaClkEn0 | SyncLfaPresc0 | SyncLfbClkEn0 | SyncLfbPresc0 | SyncLfcClkEn0

  /** A flag a busy-wait loop reads. */
  datatype Flag = Status(status: StatusBit) | SyncBusy(sync: SyncBit)

  /** The registers written. The two command registers carry the command written. */
  datatype Reg =
    | OscEnCmd(command: OscCommand)
    | Cmd(clock: ClockCommand)
    | HfrcoCtrl | AuxHfrcoCtrl
    | UsHfrcoConf | UsHfrcoCtrl | UsHfrcoTune
    | Ctrl | HfCoreClkDiv | HfPerClkDiv
    | HfCoreClkEn0 | HfPerClkEn0
    | LfClkSel
    | LfaPresc0 | LfaClkEn0 | LfbPresc0 | LfbClkEn0 | LfcClkEn0

  /** One register access. `Poll(f, v)` is a busy-wait loop that returned once it
    * read `v` from `f`. */
  datatype Event = Write(reg: Reg) | Poll(flag: Flag, awaited: bool)

  /** The SYNCBUSY bit that guards a register, if the register is synchronised. */
  function SyncBitOf(r: Reg): (b: Option<SyncBit>)
    ensures b.Some? <==> r in {LfaPresc0, LfaClkEn0, LfbPresc0, LfbClkEn0, LfcClkEn0}
  {
    match r
    case LfaPresc0 => Some(SyncLfaPresc0)
    case LfaClkEn0 => Some(SyncLfaClkEn0)
    case LfbPresc0 => Some(SyncLfbPresc0)
    case LfbClkEn0 => Some(SyncLfbClkEn0)
    case LfcClkEn0 => Some(SyncLfcClkEn0)
    case _ => None
  }

  /** The STATUS bit that reports an oscillator ready. */
  function ReadyBit(osc: Oscillator): StatusBit
  {
    match osc
    case Hfrco => HfrcoRdy
    case AuxHfrco => AuxHfrcoRdy
    case UsHfrco => UsHfrcoRdy
    case Lfrco => LfrcoRdy
    case Hfxo => HfxoRdy
    case Lfxo => LfxoRdy
  }

  /** The STATUS bit that reports a USBC clock selection complete. */
  function UsbcSelectedBit(sel: UsbcClkSel): StatusBit
  {
    match sel
    case SelUsbcLfxo => UsbcLfxoSel
    case SelUsbcLfrco => UsbcLfrcoSel
    case SelUsbcUsHfrco => UsbcUsHfrcoSel
  }

  const UsbcSelectedBits: set<StatusBit> := {UsbcLfxoSel, UsbcLfrcoSel, UsbcUsHfrcoSel}

  /** Event `i` of trace `t` is a write to a synchronised register, and the
    * access just before it is a busy-wait that saw the register's SYNCBUSY bit
    * clear. */
  predicate PolledBefore(t: seq<Event>, i: int)
    requires 0 <= i < |t|
  {
    t[i].Write? && SyncBitOf(t[i].reg).Some? ==>
      0 < i && t[i - 1] == Poll(SyncBusy(SyncBitOf(t[i].reg).value), false)
  }

  /** Every write to a synchronised low-frequency register is immediately preceded
    * by a busy-wait for its SYNCBUSY bit to clear. A write issued while the bit
    * is set would be lost. */
  predicate SyncDiscipline(t: seq<Event>)
  {
    forall i :: 0 <= i < |t| ==> PolledBefore(t, i)
  }

  /** Appending one access keeps the discipline when that access is not a
    * synchronised write, or when the trace already ends with its busy-wait. */
  lemma {:induction false} DisciplineExtends(t: seq<Event>, e: Event)
    requires SyncDiscipline(t)
    requires e.Write? && SyncBitOf(e.reg).Some? ==>
      0 < |t| && t[|t| - 1] == Poll(SyncBusy(SyncBitOf(e.reg).value), false)
    ensures SyncDiscipline(t + [e])
  {
    var u := t + [e];
    forall i | 0 <= i < |u|
      ensures PolledBefore(u, i)
    {
      if i < |t| {
        assert PolledBefore(t, i);
        assert u[i] == t[i];
        if 0 < i {
          assert u[i - 1] == t[i - 1];
        }
      } else {
        assert u[i] == e;
      }
    }
  }

  /** Two traces that each keep the discipline keep it when run one after the other. */
  lemma {:induction false} DisciplineConcat(t: seq<Event>, u: seq<Event>)
    requires SyncDiscipline(t) && SyncDiscipline(u)
    ensures SyncDiscipline(t + u)
  {
    var w := t + u;
    forall i | 0 <= i < |w|
      ensures PolledBefore(w, i)
    {
      if i < |t| {
        assert PolledBefore(t, i);
        assert w[i] == t[i];
        if 0 < i {
          assert w[i - 1] == t[i - 1];
        }
      } else {
        assert PolledBefore(u, i - |t|);
        assert w[i] == u[i - |t|];
        if |t| < i {
          assert w[i - 1] == u[i - |t| - 1];
        }
      }
    }
  }

  /** The CMU registers, field by field. */
  class Cmu {
    // HFRCOCTRL
    var hfrcoBand: RcBand
    var hfrcoTuning: bv8
    // AUXHFRCOCTRL
    var auxhfrcoBand: RcBand
    var auxhfrcoTuning: bv8
    // USHFRCOCONF, USHFRCOCTRL (7-bit TUNING), USHFRCOTUNE (6-bit FINETUNING)
    var ushfrcoBand: UsBand
    var ushfrcoDiv2Dis: bool
    var ushfrcoTuning: bv8
    var ushfrcoFineTuning: bv8
    // CTRL.HFCLKDIV: HFCLK is HFCLKDIV + 1 times slower than its source
    var hfclkDiv: nat
    // HFCORECLKDIV: HFCORECLKDIV (log2 of the division) and HFCORECLKLEDIV (divide by 4, not 2)
    var hfcoreclkDiv: nat
    var hfcoreclkLeDiv: bool
    // HFPERCLKDIV: HFPERCLKEN and HFPERCLKDIV (log2 of the division)
    var hfperclkEn: bool
    var hfperclkDiv: nat
    // HFCORECLKEN0 and HFPERCLKEN0, as the sets of bits that are set
    var hfcoreclkEn0: set<CoreGate>
    var hfperclkEn0: set<PerGate>
    // LFCLKSEL
    var lfa: LfSel
    var lfae: bool
    var lfb: LfSel
    var lfbe: bool
    var lfc: LfcSel
    // LFAPRESC0.RTC and LFBPRESC0.LEUART0 (log2 of the division), LFACLKEN0.RTC,
    // LFBCLKEN0.LEUART0, LFCCLKEN0.USBLE
    var lfaPresc0Rtc: nat
    var lfaClkEn0Rtc: bool
    var lfbPresc0Leuart0: nat
    var lfbClkEn0Leuart0: bool
    var lfcClkEn0UsbLe: bool
    // STATUS and SYNCBUSY, as the sets of bits that are set
    var status: set<StatusBit>
    var syncBusy: set<SyncBit>

    ghost var trace: seq<Event>

    /** Every field fits its bit width, and the accesses so far kept the
      * synchronisation discipline. */
    ghost predicate Valid()
      reads this
    {
      && ushfrcoTuning < 0x80 && ushfrcoFineTuning < 0x40
      && hfclkDiv < 8 && hfcoreclkDiv < 16 && hfperclkDiv < 16
      && lfaPresc0Rtc < 16 && lfbPresc0Leuart0 < 4
      && SyncDiscipline(trace)
    }

    /** `while <STATUS bit> is clear {}`: returns once the bit reads set. */
    method WaitSet(bit: StatusBit)
      requires Valid()
      modifies this`status, this`trace
      ensures Valid()
      ensures status == old(status) + {bit}
      ensures trace == old(trace) + [Poll(Status(bit), true)]
    {
      DisciplineExtends(trace, Poll(Status(bit), true));
      status := status + {bit};
      trace := trace + [Poll(Status(bit), true)];
    }

    /** `while <SYNCBUSY bit> is set {}`: returns once the bit reads clear. */
    method WaitClear(bit: SyncBit)
      requires Valid()
      modifies this`syncBusy, this`trace
      ensures Valid()
      ensures syncBusy == old(syncBusy) - {bit}
      ensures trace == old(trace) + [Poll(SyncBusy(bit), false)]
    {
      DisciplineExtends(trace, Poll(SyncBusy(bit), false));
      syncBusy := syncBusy - {bit};
      trace := trace + [Poll(SyncBusy(bit), false)];
    }

    /** Records a write to an unsynchronised register. */
    method Record(r: Reg)
      requires Valid() && SyncBitOf(r).None?
      modifies this`trace
      ensures Valid()
      ensures trace == old(trace) + [Write(r)]
    {
      DisciplineExtends(trace, Write(r));
      trace := trace + [Write(r)];
    }

    /** Records a write to a synchronised register; the write is only issued
      * straight after the busy-wait on its SYNCBUSY bit, and it sets that bit
      * until the low-frequency domain has taken the new value. */
    method RecordSynced(r: Reg)
      requires Valid() && SyncBitOf(r).Some?
      requires 0 < |trace| && trace[|trace| - 1] == Poll(SyncBusy(SyncBitOf(r).value), false)
      modifies this`syncBusy, this`trace
      ensures Valid()
      ensures syncBusy == old(syncBusy) + {SyncBitOf(r).value}
      ensures trace == old(trace) + [Write(r)]
    {
      DisciplineExtends(trace, Write(r));
      syncBusy := syncBusy + {SyncBitOf(r).value};
      trace := trace + [Write(r)];
    }

    /** `oscencmd.write(...)`. Disabling an oscillator is immediate: its ready
      * bit clears. */
    method WriteOscEnCmd(command: OscCommand)
      requires Valid()
      modifies this`status, this`trace
      ensures Valid()
      ensures status == if command.Disable? then old(status) - {ReadyBit(command.osc)} else old(status)
      ensures trace == old(trace) + [Write(OscEnCmd(command))]
    {
      Record(OscEnCmd(command));
      if command.Disable? {
        status := status - {ReadyBit(command.osc)};
      }
    }

    /** `oscencmd.write(|w| w.<osc>en()..)` followed by the busy-wait on the
      * oscillator's ready bit: the common way an oscillator is started. */
    method StartOscillator(osc: Oscillator)
      requires Valid()
      modifies this`status, this`trace
      ensures Valid()
      ensures status == old(status) + {ReadyBit(osc)}
      ensures trace == old(trace) + [Write(OscEnCmd(Enable(osc)))] + [Poll(Status(ReadyBit(osc)), true)]
    {
      WriteOscEnCmd(Enable(osc));
      WaitSet(ReadyBit(osc));
    }

    /** `cmd.write(...)`. A USBC clock selection is complete only once STATUS
      * reports it: until then no USBC selection bit reads set. */
    method WriteCmd(command: ClockCommand)
      requires Valid()
      modifies this`status, this`trace
      ensures Valid()
      ensures status == if command.UsbcClkSelect? then old(status) - UsbcSelectedBits else old(status)
      ensures trace == old(trace) + [Write(Cmd(command))]
    {
      Record(Cmd(command));
      if command.UsbcClkSelect? {
        status := status - UsbcSelectedBits;
      }
    }

    /** `hfrcoctrl.write(|w| w.band().. .tuning()..)`. */
    method WriteHfrcoCtrl(band: RcBand, tuning: bv8)
      requires Valid()
      modifies this`hfrcoBand, this`hfrcoTuning, this`trace
      ensures Valid()
      ensures hfrcoBand == band && hfrcoTuning == tuning
      ensures trace == old(trace) + [Write(HfrcoCtrl)]
    {
      Record(HfrcoCtrl);
      hfrcoBand, hfrcoTuning := band, tuning;
    }

    /** `auxhfrcoctrl.write(|w| w.band().. .tuning()..)`. */
    method WriteAuxHfrcoCtrl(band: RcBand, tuning: bv8)
      requires Valid()
      modifies this`auxhfrcoBand, this`auxhfrcoTuning, this`trace
      ensures Valid()
      ensures auxhfrcoBand == band && auxhfrcoTuning == tuning
      ensures trace == old(trace) + [Write(AuxHfrcoCtrl)]
    {
      Record(AuxHfrcoCtrl);
      auxhfrcoBand, auxhfrcoTuning := band, tuning;
    }

    /** `ushfrcoconf.write(|w| w.band()..)`: USHFRCODIV2DIS returns to its reset value. */
    method WriteUsHfrcoConf(band: UsBand)
      requires Valid()
      modifies this`ushfrcoBand, this`ushfrcoDiv2Dis, this`trace
      ensures Valid()
      ensures ushfrcoBand == band && !ushfrcoDiv2Dis
      ensures trace == old(trace) + [Write(UsHfrcoConf)]
    {
      Record(UsHfrcoConf);
      ushfrcoBand, ushfrcoDiv2Dis := band, false;
    }

    /** `ushfrcoconf.modify(|_, w| w.ushfrcodiv2dis()..)`. */
    method ModifyUsHfrcoDiv2Dis(disable: bool)
      requires Valid()
      modifies this`ushfrcoDiv2Dis, this`trace
      ensures Valid()
      ensures ushfrcoDiv2Dis == disable
      ensures trace == old(trace) + [Write(UsHfrcoConf)]
    {
      Record(UsHfrcoConf);
      ushfrcoDiv2Dis := disable;
    }

    /** `ushfrcoctrl.write(|w| w.tuning()..)`. */
    method WriteUsHfrcoCtrl(tuning: bv8)
      requires Valid() && tuning < 0x80
      modifies this`ushfrcoTuning, this`trace
      ensures Valid()
      ensures ushfrcoTuning == tuning
      ensures trace == old(trace) + [Write(UsHfrcoCtrl)]
    {
      Record(UsHfrcoCtrl);
      ushfrcoTuning := tuning;
    }

    /** `ushfrcotune.write(|w| w.finetuning()..)`. */
    method WriteUsHfrcoTune(fine: bv8)
      requires Valid() && fine < 0x40
      modifies this`ushfrcoFineTuning, this`trace
      ensures Valid()
      ensures ushfrcoFineTuning == fine
      ensures trace == old(trace) + [Write(UsHfrcoTune)]
    {
      Record(UsHfrcoTune);
      ushfrcoFineTuning := fine;
    }

    /** `ctrl.modify(|_, w| w.hfclkdiv()..)`. */
    method ModifyHfClkDiv(code: nat)
      requires Valid() && code < 8
      modifies this`hfclkDiv, this`trace
      ensures Valid()
      ensures hfclkDiv == code
      ensures trace == old(trace) + [Write(Ctrl)]
    {
      Record(Ctrl);
      hfclkDiv := code;
    }

    /** `hfcoreclkdiv.write(|w| w.hfcoreclkdiv()..)`: HFCORECLKLEDIV returns to its reset value. */
    method WriteHfCoreClkDiv(code: nat)
      requires Valid() && code < 16
      modifies this`hfcoreclkDiv, this`hfcoreclkLeDiv, this`trace
      ensures Valid()
      ensures hfcoreclkDiv == code && !hfcoreclkLeDiv
      ensures trace == old(trace) + [Write(HfCoreClkDiv)]
    {
      Record(HfCoreClkDiv);
      hfcoreclkDiv, hfcoreclkLeDiv := code, false;
    }

    /** `hfcoreclkdiv.modify(|_, w| w.hfcoreclklediv()..)`. */
    method ModifyHfCoreClkLeDiv(divideBy4: bool)
      requires Valid()
      modifies this`hfcoreclkLeDiv, this`trace
      ensures Valid()
      ensures hfcoreclkLeDiv == divideBy4
      ensures trace == old(trace) + [Write(HfCoreClkDiv)]
    {
      Record(HfCoreClkDiv);
      hfcoreclkLeDiv := divideBy4;
    }

    /** `hfperclkdiv.write(|w| w.hfperclken().. .hfperclkdiv()..)`. */
    method WriteHfPerClkDiv(enable: bool, code: nat)
      requires Valid() && code < 16
      modifies this`hfperclkEn, this`hfperclkDiv, this`trace
      ensures Valid()
      ensures hfperclkEn == enable && hfperclkDiv == code
      ensures trace == old(trace) + [Write(HfPerClkDiv)]
    {
      Record(HfPerClkDiv);
      hfperclkEn, hfperclkDiv := enable, code;
    }

    /** `hfcoreclken0.modify(|_, w| w.<gate>().bit(on))`. */
    method ModifyHfCoreClkEn0(gate: CoreGate, on: bool)
      requires Valid()
      modifies this`hfcoreclkEn0, this`trace
      ensures Valid()
      ensures hfcoreclkEn0 == if on then old(hfcoreclkEn0) + {gate} else old(hfcoreclkEn0) - {gate}
      ensures trace == old(trace) + [Write(HfCoreClkEn0)]
    {
      Record(HfCoreClkEn0);
      hfcoreclkEn0 := if on then hfcoreclkEn0 + {gate} else hfcoreclkEn0 - {gate};
    }

    /** `hfperclken0.modify(|_, w| w.<gate>().bit(on))`. */
    method ModifyHfPerClkEn0(gate: PerGate, on: bool)
      requires Valid()
      modifies this`hfperclkEn0, this`trace
      ensures Valid()
      ensures hfperclkEn0 == if on then old(hfperclkEn0) + {gate} else old(hfperclkEn0) - {gate}
      ensures trace == old(trace) + [Write(HfPerClkEn0)]
    {
      Record(HfPerClkEn0);
      hfperclkEn0 := if on then hfperclkEn0 + {gate} else hfperclkEn0 - {gate};
    }

    /** `lfclksel.modify(|_, w| w.lfae().. .lfa()..)`. */
    method ModifyLfa(sel: LfSel, extended: bool)
      requires Valid()
      modifies this`lfa, this`lfae, this`trace
      ensures Valid()
      ensures lfa == sel && lfae == extended
      ensures trace == old(trace) + [Write(LfClkSel)]
    {
      Record(LfClkSel);
      lfa, lfae := sel, extended;
    }

    /** `lfclksel.modify(|_, w| w.lfbe().. .lfb()..)`. */
    method ModifyLfb(sel: LfSel, extended: bool)
      requires Valid()
      modifies this`lfb, this`lfbe, this`trace
      ensures Valid()
      ensures lfb == sel && lfbe == extended
      ensures trace == old(trace) + [Write(LfClkSel)]
    {
      Record(LfClkSel);
      lfb, lfbe := sel, extended;
    }

    /** `lfclksel.modify(|_, w| w.lfc()..)`. */
    method ModifyLfc(sel: LfcSel)
      requires Valid()
      modifies this`lfc, this`trace
      ensures Valid()
      ensures lfc == sel
      ensures trace == old(trace) + [Write(LfClkSel)]
    {
      Record(LfClkSel);
      lfc := sel;
    }

    /** `lfapresc0.write(|w| w.rtc()..)`, straight after the busy-wait on SYNCBUSY.LFAPRESC0. */
    method WriteLfaPresc0(code: nat)
      requires Valid() && code < 16
      requires 0 < |trace| && trace[|trace| - 1] == Poll(SyncBusy(SyncLfaPresc0), false)
      modifies this`lfaPresc0Rtc, this`syncBusy, this`trace
      ensures Valid()
      ensures lfaPresc0Rtc == code
      ensures syncBusy == old(syncBusy) + {SyncLfaPresc0}
      ensures trace == old(trace) + [Write(LfaPresc0)]
    {
      RecordSynced(LfaPresc0);
      lfaPresc0Rtc := code;
    }

    /** `lfaclken0.write(|w| w.rtc().bit(on))`, straight after the busy-wait on SYNCBUSY.LFACLKEN0. */
    method WriteLfaClkEn0(on: bool)
      requires Valid()
      requires 0 < |trace| && trace[|trace| - 1] == Poll(SyncBusy(SyncLfaClkEn0), false)
      modifies this`lfaClkEn0Rtc, this`syncBusy, this`trace
      ensures Valid()
      ensures lfaClkEn0Rtc == on
      ensures syncBusy == old(syncBusy) + {SyncLfaClkEn0}
      ensures trace == old(trace) + [Write(LfaClkEn0)]
    {
      RecordSynced(LfaClkEn0);
      lfaClkEn0Rtc := on;
    }

    /** `lfbpresc0.write(|w| w.leuart0()..)`, straight after the busy-wait on SYNCBUSY.LFBPRESC0. */
    method WriteLfbPresc0(code: nat)
      requires Valid() && code < 4
      requires 0 < |trace| && trace[|trace| - 1] == Poll(SyncBusy(SyncLfbPresc0), false)
      modifies this`lfbPresc0Leuart0, this`syncBusy, this`trace
      ensures Valid()
      ensures lfbPresc0Leuart0 == code
      ensures syncBusy == old(syncBusy) + {SyncLfbPresc0}
      ensures trace == old(trace) + [Write(LfbPresc0)]
    {
      RecordSynced(LfbPresc0);
      lfbPresc0Leuart0 := code;
    }

    /** `lfbclken0.write(|w| w.leuart0().bit(on))`, straight after the busy-wait on SYNCBUSY.LFBCLKEN0. */
    method WriteLfbClkEn0(on: bool)
      requires Valid()
      requires 0 < |trace| && trace[|trace| - 1] == Poll(SyncBusy(SyncLfbClkEn0), false)
      modifies this`lfbClkEn0Leuart0, this`syncBusy, this`trace
      ensures Valid()
      ensures lfbClkEn0Leuart0 == on
      ensures syncBusy == old(syncBusy) + {SyncLfbClkEn0}
      ensures trace == old(trace) + [Write(LfbClkEn0)]
    {
      RecordSynced(LfbClkEn0);
      lfbClkEn0Leuart0 := on;
    }

    /** `lfcclken0.write(|w| w.usble().bit(on))`, straight after the busy-wait on SYNCBUSY.LFCCLKEN0. */
    method WriteLfcClkEn0(on: bool)
      requires Valid()
      requires 0 < |trace| && trace[|trace| - 1] == Poll(SyncBusy(SyncLfcClkEn0), false)
      modifies this`lfcClkEn0UsbLe, this`syncBusy, this`trace
      ensures Valid()
      ensures lfcClkEn0UsbLe == on
      ensures syncBusy == old(syncBusy) + {SyncLfcClkEn0}
      ensures trace == old(trace) + [Write(LfcClkEn0)]
    {
      RecordSynced(LfcClkEn0);
      lfcClkEn0UsbLe := on;
    }
  }
}

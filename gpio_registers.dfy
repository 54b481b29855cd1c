/** The GPIO register block (section 26.5 of the EFM32HG reference manual) as
  * the drivers in src/gpio.rs and src/gpio/mod.rs see it.
  *
  * Per port: MODEL and MODEH hold one 4-bit MODE field per pin (pins 0–7 and
  * 8–15), DIN the input levels, and DOUT the output latches, seen here as the
  * set of pins whose latch is high. DOUTSET, DOUTCLR and DOUTTGL are
  * write-only views of DOUT that set, clear or toggle the pins whose bits are
  * written as 1. A ghost `trace` records every write in program order. */
module GpioRegisters {
  import opened GpioBits

  datatype Port = A | B | C | D | E | F

  /** One register write. */
  datatype Access =
    | ModeLWrite(port: Port)
    | ModeHWrite(port: Port)
    | DoutSetWrite(port: Port, bits: bv32)
    | DoutClrWrite(port: Port, bits: bv32)
    | DoutTglWrite(port: Port, bits: bv32)

  /** The latches after inverting those of `pins`. */
  function Toggle(high: set<PinIndex>, pins: set<PinIndex>): (r: set<PinIndex>)
    ensures forall q :: q in pins ==> (q in r <==> q !in high)
    ensures forall q :: q !in pins ==> (q in r <==> q in high)
  {
    (high - pins) + (pins - high)
  }

  /** Toggling the same pins twice restores the latches. */
  lemma ToggleInvolutive(high: set<PinIndex>, pins: set<PinIndex>)
    ensures Toggle(Toggle(high, pins), pins) == high
  {
    var once := Toggle(high, pins);
    var twice := Toggle(once, pins);
    forall q | q in twice
      ensures q in high
    {
      if q in pins { assert q !in once; }
    }
    forall q | q in high
      ensures q in twice
    {
      if q in pins { assert q !in once; }
    }
  }

  class GpioBlock {
    var modeL: map<Port, bv32>
    var modeH: map<Port, bv32>
    var dout: map<Port, set<PinIndex>>
    var din: map<Port, bv32>
    ghost var trace: seq<Access>

    ghost predicate Valid()
      reads this
    {
      forall p: Port :: p in modeL && p in modeH && p in dout && p in din
    }

    /** The MODE field of pin `pin` of `port`: MODEL for pins 0–7, MODEH for
      * pins 8–15. */
    function ModeOf(port: Port, pin: PinIndex): (m: bv32)
      reads this`modeL, this`modeH
      requires port in modeL && port in modeH && pin < 16
      ensures m < 16
    {
      if pin < 8 then Nibble(modeL[port], pin) else Nibble(modeH[port], pin - 8)
    }

    /** The output latch of pin `pin` of `port`. */
    function DoutBit(port: Port, pin: PinIndex): bool
      reads this`dout
      requires port in dout && pin < 16
    {
      pin in dout[port]
    }

    /** The input level of pin `pin` of `port`. */
    function DinBit(port: Port, pin: PinIndex): bool
      reads this`din
      requires port in din && pin < 16
    {
      BitTest(din[port], pin)
    }

    constructor (modeL0: map<Port, bv32>, modeH0: map<Port, bv32>, dout0: map<Port, set<PinIndex>>, din0: map<Port, bv32>)
      requires forall p: Port :: p in modeL0 && p in modeH0 && p in dout0 && p in din0
      ensures Valid() && trace == []
      ensures modeL == modeL0 && modeH == modeH0 && dout == dout0 && din == din0
    {
      modeL, modeH, dout, din := modeL0, modeH0, dout0, din0;
      trace := [];
    }

    /** `P<port>_MODEL.write(bits)` (or the write half of a `modify`). */
    method WriteModeL(port: Port, value: bv32)
      requires Valid()
      modifies this`modeL, this`trace
      ensures Valid()
      ensures modeL == old(modeL)[port := value]
      ensures trace == old(trace) + [ModeLWrite(port)]
    {
      modeL := modeL[port := value];
      trace := trace + [ModeLWrite(port)];
    }

    /** `P<port>_MODEH.write(bits)`. */
    method WriteModeH(port: Port, value: bv32)
      requires Valid()
      modifies this`modeH, this`trace
      ensures Valid()
      ensures modeH == old(modeH)[port := value]
      ensures trace == old(trace) + [ModeHWrite(port)]
    {
      modeH := modeH[port := value];
      trace := trace + [ModeHWrite(port)];
    }

    /** `P<port>_MODEx.modify(|_, w| w.mode<pin>().bits(v))`: the field
      * writer's read-modify-write of one MODE field. */
    method ModifyModeField(port: Port, pin: PinIndex, v: bv32)
      requires Valid() && pin < 16 && v < 16
      modifies this`modeL, this`modeH, this`trace
      ensures Valid()
      ensures ModeOf(port, pin) == v
      ensures forall p, q: PinIndex :: q < 16 && (p != port || q != pin) ==> ModeOf(p, q) == old(ModeOf(p, q))
      ensures trace == old(trace) + [if pin < 8 then ModeLWrite(port) else ModeHWrite(port)]
    {
      if pin < 8 {
        WriteModeL(port, ReplaceNibble(modeL[port], pin, v));
      } else {
        WriteModeH(port, ReplaceNibble(modeH[port], pin - 8, v));
      }
    }

    /** A write to DOUTSET: the bits written as 1 are set in DOUT. */
    method WriteDoutSet(port: Port, bits: bv32)
      requires Valid()
      modifies this`dout, this`trace
      ensures Valid()
      ensures dout == old(dout)[port := old(dout[port]) + PinsOf(bits)]
      ensures trace == old(trace) + [DoutSetWrite(port, bits)]
    {
      dout := dout[port := dout[port] + PinsOf(bits)];
      trace := trace + [DoutSetWrite(port, bits)];
    }

    /** A write to DOUTCLR: the bits written as 1 are cleared in DOUT. */
    method WriteDoutClr(port: Port, bits: bv32)
      requires Valid()
      modifies this`dout, this`trace
      ensures Valid()
      ensures dout == old(dout)[port := old(dout[port]) - PinsOf(bits)]
      ensures trace == old(trace) + [DoutClrWrite(port, bits)]
    {
      dout := dout[port := dout[port] - PinsOf(bits)];
      trace := trace + [DoutClrWrite(port, bits)];
    }

    /** A write to DOUTTGL: the bits written as 1 are inverted in DOUT. */
    method WriteDoutTgl(port: Port, bits: bv32)
      requires Valid()
      modifies this`dout, this`trace
      ensures Valid()
      ensures dout == old(dout)[port := Toggle(old(dout[port]), PinsOf(bits))]
      ensures trace == old(trace) + [DoutTglWrite(port, bits)]
    {
      dout := dout[port := Toggle(dout[port], PinsOf(bits))];
      trace := trace + [DoutTglWrite(port, bits)];
    }
  }

}

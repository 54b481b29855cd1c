/** The typed pin driver of src/gpio/mod.rs. Each pin is a zero-sized handle
  * whose type parameter records its configuration; here the handle is a
  * `PinToken` value holding its port, its bit and that configuration, and the
  * operations the source offers only at some configurations require them.
  *
  * `mode` writes the pin's MODE field and, where the configuration fixes the
  * output latch, DOUTSET or DOUTCLR; the input and output operations read DIN
  * or DOUT, or write DOUTSET, DOUTCLR or DOUTTGL. */
module GpioPins {
  import opened Wrappers
  import opened GpioBits
  import opened GpioRegisters
  import opened GpioPinModes
  import GpioDriver

  /** The `Mode` type parameter of a pin: `UnknownMode` until the first
    * `mode` call, a configuration after it. */
  datatype PinState = UnknownMode | Configured(config: PinMode)

  /** A pin handle (`Pa0<Mode>`, …, `Pf15<Mode>`). */
  datatype PinToken = PinToken(port: Port, bit: PinIndex, state: PinState)

  /** What the hardware does with a pin: its MODE field and its DOUT latch
    * read through table 26.1. */
  function Behaviour(g: GpioBlock, port: Port, bit: PinIndex): (InputMode, OutputState)
    reads g`modeL, g`modeH, g`dout
    requires port in g.modeL && port in g.modeH && port in g.dout && bit < 16
  {
    Hardware(g.ModeOf(port, bit), g.DoutBit(port, bit))
  }

  /** The hardware realises configuration `m` at the pin: a fixed-state
    * output has that state now; a multi-state output has its high state
    * under DOUT = 1 and its low state under DOUT = 0, whatever DOUT is now. */
  ghost predicate Configures(g: GpioBlock, port: Port, bit: PinIndex, m: PinMode)
    reads g`modeL, g`modeH, g`dout
    requires port in g.modeL && port in g.modeH && port in g.dout && bit < 16
  {
    match m.output
    case SingleState(s) =>
      Behaviour(g, port, bit) == (m.input, s)
    case MultiState(h, l) =>
      var mode := g.ModeOf(port, bit);
      Hardware(mode, true) == (m.input, h) && Hardware(mode, false) == (m.input, l)
  }

  /** The handle's type parameter is true of the hardware. */
  ghost predicate Applied(g: GpioBlock, t: PinToken)
    reads g
  {
    g.Valid() && t.bit < 16 && t.state.Configured? && Configures(g, t.port, t.bit, t.state.config)
  }

  /** The handle's configuration lets it drive the pin (`OutputPin`,
    * `ToggleableOutputPin`, `StatefulOutputPin`: multi-state outputs). */
  predicate Drives(t: PinToken)
  {
    t.state.Configured? && t.state.config.output.MultiState?
  }

  /** The handle's configuration lets it read the pin (`InputPin`: input
    * enabled or filtered). */
  predicate Senses(t: PinToken)
  {
    t.state.Configured? && t.state.config.input != InputDisabled
  }

  /** The latches after `mode` stores the configuration's DOUT, if it has one. */
  function Latched(high: set<PinIndex>, bit: PinIndex, dout: Option<bool>): (r: set<PinIndex>)
    ensures dout.Some? ==> (bit in r <==> dout.value)
    ensures forall q :: q != bit ==> (q in r <==> q in high)
    ensures dout.None? ==> r == high
  {
    match dout
    case None => high
    case Some(true) => high + {bit}
    case Some(false) => high - {bit}
  }

  /** The DOUT writes `mode` issues after the MODE write. */
  function DoutWrites(port: Port, bit: PinIndex, dout: Option<bool>): seq<Access>
    requires bit < 16
  {
    match dout
    case None => []
    case Some(true) => [DoutSetWrite(port, Bit(bit))]
    case Some(false) => [DoutClrWrite(port, Bit(bit))]
  }

  /** `mode`: writes the configuration's MODE into the pin's field of MODEL or
    * MODEH, then sets or clears the pin's latch where the configuration fixes
    * DOUT. Afterwards the hardware realises the configuration, and no other
    * pin's field or latch has changed. */
  method Mode(g: GpioBlock, t: PinToken, m: PinMode) returns (r: PinToken)
    requires g.Valid() && t.bit < 16 && Valid(m)
    modifies g`modeL, g`modeH, g`dout, g`trace
    ensures g.Valid()
    ensures r == PinToken(t.port, t.bit, Configured(m))
    ensures g.ModeOf(t.port, t.bit) == Lookup(m).value.mode
    ensures forall p, q: PinIndex :: q < 16 && (p != t.port || q != t.bit) ==> g.ModeOf(p, q) == old(g.ModeOf(p, q))
    ensures g.dout == old(g.dout)[t.port := Latched(old(g.dout[t.port]), t.bit, Lookup(m).value.dout)]
    ensures Applied(g, r)
    ensures g.trace == old(g.trace) + [if t.bit < 8 then ModeLWrite(t.port) else ModeHWrite(t.port)]
      + DoutWrites(t.port, t.bit, Lookup(m).value.dout)
  {
    var e := Lookup(m).value;
    DoutFreeIffMultiState(m);
    g.ModifyModeField(t.port, t.bit, e.mode);
    StoreDout(g, t.port, t.bit, e.dout);
    EntryConfigures(g, t.port, t.bit, m);
    r := PinToken(t.port, t.bit, Configured(m));
  }

  /** The second half of `mode`: a write of the pin's bit to DOUTSET or
    * DOUTCLR when the configuration fixes DOUT, nothing otherwise. */
  method StoreDout(g: GpioBlock, port: Port, bit: PinIndex, dout: Option<bool>)
    requires g.Valid() && bit < 16
    modifies g`dout, g`trace
    ensures g.Valid()
    ensures g.dout == old(g.dout)[port := Latched(old(g.dout[port]), bit, dout)]
    ensures g.trace == old(g.trace) + DoutWrites(port, bit, dout)
  {
    PinsOfBit(bit);
    match dout {
      case Some(true) => g.WriteDoutSet(port, Bit(bit));
      case Some(false) => g.WriteDoutClr(port, Bit(bit));
      case None =>
    }
  }

  /** A MODE field holding the configuration's table mode, and a latch holding
    * its DOUT where it fixes one, realise the configuration. */
  lemma EntryConfigures(g: GpioBlock, port: Port, bit: PinIndex, m: PinMode)
    requires port in g.modeL && port in g.modeH && port in g.dout && bit < 16 && Valid(m)
    requires g.ModeOf(port, bit) == Lookup(m).value.mode
    requires Lookup(m).value.dout.Some? ==> g.DoutBit(port, bit) == Lookup(m).value.dout.value
    ensures Configures(g, port, bit, m)
  {
    TableSound(m);
  }

  /** `is_high`: the pin's bit of DIN is 1. */
  function IsHigh(g: GpioBlock, t: PinToken): (b: bool)
    reads g`din
    requires Senses(t) && t.port in g.din && t.bit < 16
    ensures b == g.DinBit(t.port, t.bit)
    ensures b <==> t.bit in PinsOf(g.din[t.port])
  {
    assert t.bit in PortPins;
    g.din[t.port] & (1 << t.bit) != 0
  }

  /** `is_low`: the pin's bit of DIN is 0. */
  function IsLow(g: GpioBlock, t: PinToken): (b: bool)
    reads g`din
    requires Senses(t) && t.port in g.din && t.bit < 16
    ensures b == !g.DinBit(t.port, t.bit)
  {
    g.din[t.port] & (1 << t.bit) == 0
  }

  /** `is_low` is the negation of `is_high`, and `is_high` reads the pin's own
    * input level: the pin is among the high pins of DIN. */
  lemma {:induction false} InputLevel(g: GpioBlock, t: PinToken)
    requires Senses(t) && t.port in g.din && t.bit < 16
    ensures IsLow(g, t) == !IsHigh(g, t)
    ensures IsHigh(g, t) == g.DinBit(t.port, t.bit)
    ensures IsHigh(g, t) <==> t.bit in PinsOf(g.din[t.port])
  {
    assert t.bit in PortPins;
  }

  /** `set_high`: writes the pin's bit to DOUTSET. The latch goes high, no
    * other latch changes, and a pin that realised its configuration now
    * drives its high state. */
  method SetHigh(g: GpioBlock, t: PinToken)
    requires g.Valid() && t.bit < 16 && Drives(t)
    modifies g`dout, g`trace
    ensures g.Valid()
    ensures g.dout == old(g.dout)[t.port := old(g.dout[t.port]) + {t.bit}]
    ensures IsSetHigh(g, t)
    ensures old(Applied(g, t)) ==> Applied(g, t) && Behaviour(g, t.port, t.bit).1 == t.state.config.output.high
    ensures g.trace == old(g.trace) + [DoutSetWrite(t.port, Bit(t.bit))]
  {
    PinsOfBit(t.bit);
    g.WriteDoutSet(t.port, Bit(t.bit));
  }

  /** `set_low`: writes the pin's bit to DOUTCLR. The latch goes low, no
    * other latch changes, and a pin that realised its configuration now
    * drives its low state. */
  method SetLow(g: GpioBlock, t: PinToken)
    requires g.Valid() && t.bit < 16 && Drives(t)
    modifies g`dout, g`trace
    ensures g.Valid()
    ensures g.dout == old(g.dout)[t.port := old(g.dout[t.port]) - {t.bit}]
    ensures IsSetLow(g, t)
    ensures old(Applied(g, t)) ==> Applied(g, t) && Behaviour(g, t.port, t.bit).1 == t.state.config.output.low
    ensures g.trace == old(g.trace) + [DoutClrWrite(t.port, Bit(t.bit))]
  {
    PinsOfBit(t.bit);
    g.WriteDoutClr(t.port, Bit(t.bit));
  }

  /** `toggle`: writes the pin's bit to DOUTTGL. The latch inverts, no other
    * latch changes, and the pin keeps realising its configuration. */
  method Toggle(g: GpioBlock, t: PinToken)
    requires g.Valid() && t.bit < 16 && Drives(t)
    modifies g`dout, g`trace
    ensures g.Valid()
    ensures g.dout == old(g.dout)[t.port := GpioRegisters.Toggle(old(g.dout[t.port]), {t.bit})]
    ensures IsSetHigh(g, t) == old(IsSetLow(g, t))
    ensures old(Applied(g, t)) ==> Applied(g, t)
    ensures g.trace == old(g.trace) + [DoutTglWrite(t.port, Bit(t.bit))]
  {
    PinsOfBit(t.bit);
    g.WriteDoutTgl(t.port, Bit(t.bit));
  }

  /** `is_set_high`: the pin's DOUT latch is 1. */
  function IsSetHigh(g: GpioBlock, t: PinToken): (b: bool)
    reads g`dout
    requires Drives(t) && t.port in g.dout && t.bit < 16
    ensures b == g.DoutBit(t.port, t.bit)
  {
    t.bit in g.dout[t.port]
  }

  /** `is_set_low`: the pin's DOUT latch is 0. */
  function IsSetLow(g: GpioBlock, t: PinToken): (b: bool)
    reads g`dout
    requires Drives(t) && t.port in g.dout && t.bit < 16
    ensures b == !g.DoutBit(t.port, t.bit)
  {
    t.bit !in g.dout[t.port]
  }

  /** `InitialGpioState::get_initial_state`: one handle in `UnknownMode` for
    * each pin the board wires up, the same pins, in the same order, as the
    * untyped driver's `Gpio::pins`. */
  function InitialGpioState(): (s: seq<PinToken>)
    ensures |s| == |GpioDriver.Pins()|
    ensures forall i :: 0 <= i < |s| ==>
      s[i].state == UnknownMode && (s[i].port, s[i].bit) == GpioDriver.Location(GpioDriver.Pins()[i])
    ensures forall i, j :: 0 <= i < j < |s| ==> (s[i].port, s[i].bit) != (s[j].port, s[j].bit)
  {
    [PinToken(A, 0, UnknownMode), PinToken(B, 7, UnknownMode), PinToken(B, 8, UnknownMode),
     PinToken(B, 11, UnknownMode), PinToken(B, 13, UnknownMode), PinToken(B, 14, UnknownMode),
     PinToken(C, 0, UnknownMode), PinToken(C, 1, UnknownMode), PinToken(E, 12, UnknownMode),
     PinToken(E, 13, UnknownMode), PinToken(F, 0, UnknownMode), PinToken(F, 1, UnknownMode),
     PinToken(F, 2, UnknownMode)]
  }
}

/** The older, untyped GPIO driver (src/gpio.rs): pins named by a port and a
  * number, a 16-value mode enum written raw into MODEL/MODEH, and single-bit
  * writes to DOUTSET, DOUTCLR and DOUTTGL. */
module GpioDriver {
  import opened GpioBits
  import opened GpioRegisters

  /** The source's `PinMode` enum; its discriminants are the MODE codes. */
  datatype Mode =
    | Disabled | Input | InputPull | InputPullFilter
    | PushPull | PushPullDrive | Wiredor | WiredOrPullDown
    | WiredAnd | WiredAndFilter | WiredAndPullUp | WiredAndPullUpFilter
    | WiredAndDrive | WiredAndDriveFilter | WiredAndDrivePullUp | WiredAndDrivePullUpFilter

  /** `mode as u32`: the discriminant, which fits the 4-bit MODE field. */
  function Discriminant(m: Mode): (v: bv32)
    ensures v < 16
  {
    match m
    case Disabled => 0
    case Input => 1
    case InputPull => 2
    case InputPullFilter => 3
    case PushPull => 4
    case PushPullDrive => 5
    case Wiredor => 6
    case WiredOrPullDown => 7
    case WiredAnd => 8
    case WiredAndFilter => 9
    case WiredAndPullUp => 10
    case WiredAndPullUpFilter => 11
    case WiredAndDrive => 12
    case WiredAndDriveFilter => 13
    case WiredAndDrivePullUp => 14
    case WiredAndDrivePullUpFilter => 15
  }

  /** Distinct modes have distinct codes, and every code 0–15 is some mode's. */
  lemma DiscriminantBijective(m1: Mode, m2: Mode, v: bv32)
    ensures Discriminant(m1) == Discriminant(m2) ==> m1 == m2
    ensures v < 16 ==> exists m :: Discriminant(m) == v
  {
    if v < 16 {
      var m :=
        if v < 4 then (if v == 0 then Disabled else if v == 1 then Input else if v == 2 then InputPull else InputPullFilter)
        else if v < 8 then (if v == 4 then PushPull else if v == 5 then PushPullDrive else if v == 6 then Wiredor else WiredOrPullDown)
        else if v < 12 then (if v == 8 then WiredAnd else if v == 9 then WiredAndFilter else if v == 10 then WiredAndPullUp else WiredAndPullUpFilter)
        else (if v == 12 then WiredAndDrive else if v == 13 then WiredAndDriveFilter else if v == 14 then WiredAndDrivePullUp else WiredAndDrivePullUpFilter);
      assert Discriminant(m) == v;
    }
  }

  /** Gpio::pin_mode: a read-modify-write of MODEL (pins 0–7) or MODEH (pins
    * 8–15, field `pin - 8`) that clears the pin's field with a mask and ors
    * in the shifted discriminant. A pin of 16 or more would overflow the
    * shift, so callers pass pins below 16. */
  method PinMode(g: GpioBlock, port: Port, pin: PinIndex, mode: Mode)
    requires g.Valid() && pin < 16
    modifies g`modeL, g`modeH, g`trace
    ensures g.Valid()
    ensures g.ModeOf(port, pin) == Discriminant(mode)
    ensures forall p, q: PinIndex :: q < 16 && (p != port || q != pin) ==> g.ModeOf(p, q) == old(g.ModeOf(p, q))
    ensures g.trace == old(g.trace) + [if pin < 8 then ModeLWrite(port) else ModeHWrite(port)]
  {
    g.ModifyModeField(port, pin, Discriminant(mode));
  }

  /** Gpio::pin_set: writes `1 << pin` to the port's DOUTSET, which raises
    * that pin's output latch and no other. */
  method PinSet(g: GpioBlock, port: Port, pin: PinIndex)
    requires g.Valid() && pin < 16
    modifies g`dout, g`trace
    ensures g.Valid()
    ensures g.dout == old(g.dout)[port := old(g.dout[port]) + {pin}]
    ensures g.DoutBit(port, pin)
    ensures forall q: PinIndex :: q < 16 && q != pin ==> g.DoutBit(port, q) == old(g.DoutBit(port, q))
    ensures g.trace == old(g.trace) + [DoutSetWrite(port, Bit(pin))]
  {
    PinsOfBit(pin);
    g.WriteDoutSet(port, Bit(pin));
  }

  /** Gpio::pin_clr: writes `1 << pin` to DOUTCLR, which lowers that pin's
    * output latch and no other. */
  method PinClr(g: GpioBlock, port: Port, pin: PinIndex)
    requires g.Valid() && pin < 16
    modifies g`dout, g`trace
    ensures g.Valid()
    ensures g.dout == old(g.dout)[port := old(g.dout[port]) - {pin}]
    ensures !g.DoutBit(port, pin)
    ensures forall q: PinIndex :: q < 16 && q != pin ==> g.DoutBit(port, q) == old(g.DoutBit(port, q))
    ensures g.trace == old(g.trace) + [DoutClrWrite(port, Bit(pin))]
  {
    PinsOfBit(pin);
    g.WriteDoutClr(port, Bit(pin));
  }

  /** Gpio::pin_tgl: writes `1 << pin` to DOUTTGL, which inverts that pin's
    * output latch and no other. */
  method PinTgl(g: GpioBlock, port: Port, pin: PinIndex)
    requires g.Valid() && pin < 16
    modifies g`dout, g`trace
    ensures g.Valid()
    ensures g.dout == old(g.dout)[port := Toggle(old(g.dout[port]), {pin})]
    ensures g.DoutBit(port, pin) == !old(g.DoutBit(port, pin))
    ensures forall q: PinIndex :: q < 16 && q != pin ==> g.DoutBit(port, q) == old(g.DoutBit(port, q))
    ensures g.trace == old(g.trace) + [DoutTglWrite(port, Bit(pin))]
  {
    PinsOfBit(pin);
    g.WriteDoutTgl(port, Bit(pin));
  }

  /** The test Gpio::pin_din applies to the DIN value, as written: DIN shifted
    * right by the pin number, compared with 1. */
  function ShiftTest(r: bv32, pin: PinIndex): bool
    requires pin < 32
  {
    (r >> pin) == 1
  }

  /** Gpio::pin_din as written (a pin of 32 or more would overflow the shift). */
  method PinDin(g: GpioBlock, port: Port, pin: PinIndex) returns (b: bool)
    requires g.Valid() && pin < 32
    ensures b == ShiftTest(g.din[port], pin)
  {
    b := (g.din[port] >> pin) == 1;
  }

  /** What `pin_din` as written gets right: when it reports high, the pin is
    * high. */
  lemma ShiftTestSound(r: bv32, pin: PinIndex)
    requires pin < 32
    ensures ShiftTest(r, pin) ==> BitTest(r, pin)
  {
  }

  /** What it gets wrong: whenever a higher-numbered pin of the port is high,
    * it reports the pin low, whatever the pin's own level. */
  lemma {:induction false} ShiftTestMisreadsUnderHigherPin(r: bv32, pin: PinIndex, q: PinIndex)
    requires pin < q < 32 && BitTest(r, q)
    ensures !ShiftTest(r, pin)
  {
    BitTestIsShiftedLowBit(r, q);
    ShiftedOutBitMisread(r, pin, q);
  }

  /** The same, with bit `q` read as the low bit of `r >> q`. */
  lemma ShiftedOutBitMisread(r: bv32, pin: PinIndex, q: PinIndex)
    requires pin < q < 32 && (r >> q) & 1 == 1
    ensures !ShiftTest(r, pin)
  {
    ShiftsCompose(r, pin, q);
    OneHasNoHigherBit(r >> pin, q - pin);
  }

  /** `r >> pin` followed by `>> (q - pin)` is `r >> q`, seen in the low bit. */
  lemma ShiftsCompose(r: bv32, pin: PinIndex, q: PinIndex)
    requires pin <= q < 32
    ensures ((r >> pin) >> (q - pin)) & 1 == (r >> q) & 1
  {
  }

  /** 1 has no set bit above bit 0. */
  lemma OneHasNoHigherBit(x: bv32, d: PinIndex)
    requires 0 < d < 32 && (x >> d) & 1 == 1
    ensures x != 1
  {
  }

  /** A concrete case: DIN = 0b11 (pins 0 and 1 high) reads pin 0 as low. */
  lemma ShiftTestCounterexample()
    ensures BitTest(0x3, 0) && !ShiftTest(0x3, 0)
  {
  }

  /** `pin_din` corrected to the bit test the typed driver uses
    * (src/gpio/mod.rs:80): it returns the pin's own input level. */
  method PinDinCorrected(g: GpioBlock, port: Port, pin: PinIndex) returns (b: bool)
    requires g.Valid() && pin < 16
    ensures b == g.DinBit(port, pin)
  {
    b := g.din[port] & (1 << pin) != 0;
  }

  /** The corrected reading depends on the pin's own bit alone: inverting any
    * other pin's input leaves it unchanged, and inverting its own flips it. */
  lemma {:induction false} BitTestReadsOwnBitOnly(r: bv32, pin: PinIndex, q: PinIndex)
    requires pin < 16 && q < 16
    ensures BitTest(r ^ Bit(q), pin) == (BitTest(r, pin) != (q == pin))
  {
    if q == pin {
      TglOwnBit(r, pin);
    } else {
      TglOtherBit(r, q, pin);
    }
  }

  /** The pins the board wires up (the `Pin` impls PA0 … PF2). */
  datatype BoardPin = PA0 | PB7 | PB8 | PB11 | PB13 | PB14 | PC0 | PC1 | PE12 | PE13 | PF0 | PF1 | PF2

  /** `Pin::port` and `Pin::pin` of each board pin. */
  function Location(p: BoardPin): (l: (Port, PinIndex))
    ensures l.1 < 16
  {
    match p
    case PA0 => (A, 0)
    case PB7 => (B, 7)
    case PB8 => (B, 8)
    case PB11 => (B, 11)
    case PB13 => (B, 13)
    case PB14 => (B, 14)
    case PC0 => (C, 0)
    case PC1 => (C, 1)
    case PE12 => (E, 12)
    case PE13 => (E, 13)
    case PF0 => (F, 0)
    case PF1 => (F, 1)
    case PF2 => (F, 2)
  }

  /** No two board pins share a port and a pin number. */
  lemma LocationInjective(p1: BoardPin, p2: BoardPin)
    ensures Location(p1) == Location(p2) ==> p1 == p2
  {
  }

  /** Gpio::pins: every board pin, once. */
  function Pins(): (s: seq<BoardPin>)
    ensures |s| == 13
    ensures forall i, j :: 0 <= i < j < |s| ==> s[i] != s[j]
  {
    [PA0, PB7, PB8, PB11, PB13, PB14, PC0, PC1, PE12, PE13, PF0, PF1, PF2]
  }

  /** Gpio::pins leaves no board pin out. */
  lemma {:induction false} PinsComplete(p: BoardPin)
    ensures p in Pins()
  {
    var s := Pins();
    match p
    case PA0 => assert s[0] == p;
    case PB7 => assert s[1] == p;
    case PB8 => assert s[2] == p;
    case PB11 => assert s[3] == p;
    case PB13 => assert s[4] == p;
    case PB14 => assert s[5] == p;
    case PC0 => assert s[6] == p;
    case PC1 => assert s[7] == p;
    case PE12 => assert s[8] == p;
    case PE13 => assert s[9] == p;
    case PF0 => assert s[10] == p;
    case PF1 => assert s[11] == p;
    case PF2 => assert s[12] == p;
  }

  /** Pin::dout: `set` when `value` is true, `clr` otherwise; the pin's latch
    * ends up equal to `value`. */
  method Dout(g: GpioBlock, p: BoardPin, value: bool)
    requires g.Valid()
    modifies g`dout, g`trace
    ensures g.Valid()
    ensures g.DoutBit(Location(p).0, Location(p).1) == value
    ensures forall port, q: PinIndex :: q < 16 && (port, q) != Location(p) ==> g.DoutBit(port, q) == old(g.DoutBit(port, q))
    ensures g.trace == old(g.trace) +
      [if value then DoutSetWrite(Location(p).0, Bit(Location(p).1)) else DoutClrWrite(Location(p).0, Bit(Location(p).1))]
  {
    var (port, pin) := Location(p);
    if value {
      PinSet(g, port, pin);
    } else {
      PinClr(g, port, pin);
    }
  }
}

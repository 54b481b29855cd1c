/** Bit and 4-bit-field arithmetic on the 32-bit GPIO registers. */
module GpioBits {
  /** A pin number, `u8` in the source. */
  type PinIndex = bv32

  /** The 4-bit field `k` of a MODEL or MODEH value. */
  function Nibble(r: bv32, k: PinIndex): bv32
    requires k < 8
  {
    (r >> (k * 4)) & 0xf
  }

  /** A read-modify-write of field `k`: clear the field with a mask, then or
    * in the new value shifted into place. */
  function ReplaceNibble(r: bv32, k: PinIndex, v: bv32): (w: bv32)
    requires k < 8 && v < 16
    ensures Nibble(w, k) == v
    ensures forall j: PinIndex :: j < 8 && j != k ==> Nibble(w, j) == Nibble(r, j)
  {
    var w := (r & !(0xf << (k * 4))) | (v << (k * 4));
    NibbleWritten(r, k, v);
    NibblesKept(r, k, v);
    w
  }

  lemma NibbleWritten(r: bv32, k: PinIndex, v: bv32)
    requires k < 8 && v < 16
    ensures Nibble((r & !(0xf << (k * 4))) | (v << (k * 4)), k) == v
  {
  }

  lemma NibblesKept(r: bv32, k: PinIndex, v: bv32)
    requires k < 8 && v < 16
    ensures forall j: PinIndex :: j < 8 && j != k ==>
      Nibble((r & !(0xf << (k * 4))) | (v << (k * 4)), j) == Nibble(r, j)
  {
    forall j: PinIndex | j < 8 && j != k
      ensures Nibble((r & !(0xf << (k * 4))) | (v << (k * 4)), j) == Nibble(r, j)
    {
      NibbleKept(r, k, v, j);
    }
  }

  lemma NibbleKept(r: bv32, k: PinIndex, v: bv32, j: PinIndex)
    requires k < 8 && v < 16 && j < 8 && j != k
    ensures Nibble((r & !(0xf << (k * 4))) | (v << (k * 4)), j) == Nibble(r, j)
  {
  }

  /** Bit `pin` of a register value. */
  function BitTest(r: bv32, pin: PinIndex): bool
    requires pin < 32
  {
    r & (1 << pin) != 0
  }

  /** The bit test is the low bit of the value shifted right by `pin`. */
  lemma BitTestIsShiftedLowBit(r: bv32, pin: PinIndex)
    requires pin < 32
    ensures BitTest(r, pin) == ((r >> pin) & 1 == 1)
  {
  }

  /** The DOUTSET/DOUTCLR/DOUTTGL value that selects pin `pin` alone. */
  function Bit(pin: PinIndex): (b: bv32)
    requires pin < 16
  {
    1 << pin
  }

  /** `Bit(pin)` has bit `pin` set and no other. */
  lemma OnlyOwnBit(pin: PinIndex, q: PinIndex)
    requires pin < 16 && q < 32
    ensures BitTest(Bit(pin), q) <==> q == pin
  {
  }

  /** Inverting bit `pin` of a value inverts its bit test at `pin` ... */
  lemma TglOwnBit(d: bv32, pin: PinIndex)
    requires pin < 16
    ensures BitTest(d ^ Bit(pin), pin) == !BitTest(d, pin)
  {
  }

  /** ... and leaves the bit test at every other position as it was. */
  lemma TglOtherBit(d: bv32, pin: PinIndex, q: PinIndex)
    requires pin < 16 && q < 32 && q != pin
    ensures BitTest(d ^ Bit(pin), q) == BitTest(d, q)
  {
  }

  /** The pins a DOUTSET/DOUTCLR/DOUTTGL value selects: its set bits among the
    * sixteen the register has. */
  function PinsOf(bits: bv32): set<PinIndex>
  {
    set q: PinIndex | q in PortPins && BitTest(bits, q)
  }

  /** The sixteen pin numbers of a port. */
  const PortPins: set<PinIndex> := {0, 1, 2, 3, 4, 5, 6, 7, 8, 9, 10, 11, 12, 13, 14, 15}

  /** `Bit(pin)` selects exactly pin `pin`. */
  lemma {:induction false} PinsOfBit(pin: PinIndex)
    requires pin < 16
    ensures PinsOf(Bit(pin)) == {pin}
  {
    forall q: PinIndex | q < 16
      ensures q in PinsOf(Bit(pin)) <==> q == pin
    {
      OnlyOwnBit(pin, q);
    }
  }
}

/** The frequency markers of the driver (src/consts.rs): `typenum` unsigned
  * integers, written as type-level binary numbers. A `typenum` number is
  * `UTerm` (zero) or `UInt<U, B>`, the number `U` shifted left by one bit with
  * the bit `B` appended; the innermost bit is the most significant one. */
module Consts {
  /** A `typenum` bit: `B0` or `B1`. */
  datatype Bit = B0 | B1

  /** A `typenum` unsigned integer. */
  datatype Unsigned = UTerm | UInt(high: Unsigned, low: Bit)

  function BitValue(b: Bit): nat
  {
    if b == B1 then 1 else 0
  }

  /** The number a `typenum` unsigned integer denotes (its `U64` constant). */
  function Value(u: Unsigned): nat
  {
    match u
    case UTerm => 0
    case UInt(h, b) => 2 * Value(h) + BitValue(b)
  }

  /** `typenum` numbers never carry a leading zero bit: `UInt<UTerm, B0>` is not a number. */
  predicate Canonical(u: Unsigned)
  {
    match u
    case UTerm => true
    case UInt(h, b) => (h == UTerm ==> b == B1) && Canonical(h)
  }

  /** The canonical `typenum` spelling of a number. */
  function Binary(n: nat): (u: Unsigned)
    ensures Canonical(u)
  {
    if n == 0 then UTerm else UInt(Binary(n / 2), if n % 2 == 1 then B1 else B0)
  }

  lemma {:induction false} ValueOfBinary(n: nat)
    ensures Value(Binary(n)) == n
  {
    if n > 0 {
      ValueOfBinary(n / 2);
    }
  }

  lemma {:induction false} CanonicalIsPositive(u: Unsigned)
    requires Canonical(u) && u != UTerm
    ensures Value(u) > 0
  {
    if u.high != UTerm {
      CanonicalIsPositive(u.high);
    }
  }

  /** Canonical spellings and numbers are in one-to-one correspondence. */
  lemma {:induction false} BinaryOfValue(u: Unsigned)
    requires Canonical(u)
    ensures Binary(Value(u)) == u
  {
    if u.UInt? {
      CanonicalIsPositive(u);
      BinaryOfValue(u.high);
    }
  }

  // src/consts.rs:4
  const U7000000: Unsigned :=
    UInt(UInt(UInt(UInt(UInt(UInt(UInt(UInt(UInt(UInt(UInt(UInt(UInt(UInt(UInt(UInt(UInt(UInt(UInt(UInt(UInt(UInt(UInt(UTerm, B1), B1), B0), B1), B0), B1), B0), B1), B1), B0), B0), B1), B1), B1), B1), B1), B1), B0), B0), B0), B0), B0), B0)

  // src/consts.rs:6
  const U11000000: Unsigned :=
    UInt(UInt(UInt(UInt(UInt(UInt(UInt(UInt(UInt(UInt(UInt(UInt(UInt(UInt(UInt(UInt(UInt(UInt(UInt(UInt(UInt(UInt(UInt(UInt(UTerm, B1), B0), B1), B0), B0), B1), B1), B1), B1), B1), B0), B1), B1), B0), B0), B0), B1), B1), B0), B0), B0), B0), B0), B0)

  // src/consts.rs:8
  const U14000000: Unsigned :=
    UInt(UInt(UInt(UInt(UInt(UInt(UInt(UInt(UInt(UInt(UInt(UInt(UInt(UInt(UInt(UInt(UInt(UInt(UInt(UInt(UInt(UInt(UInt(UInt(UTerm, B1), B1), B0), B1), B0), B1), B0), B1), B1), B0), B0), B1), B1), B1), B1), B1), B1), B0), B0), B0), B0), B0), B0), B0)

  // src/consts.rs:10
  const U21000000: Unsigned :=
    UInt(UInt(UInt(UInt(UInt(UInt(UInt(UInt(UInt(UInt(UInt(UInt(UInt(UInt(UInt(UInt(UInt(UInt(UInt(UInt(UInt(UInt(UInt(UInt(UInt(UTerm, B1), B0), B1), B0), B0), B0), B0), B0), B0), B0), B1), B1), B0), B1), B1), B1), B1), B0), B1), B0), B0), B0), B0), B0), B0)

  // src/consts.rs:12
  const U24000000: Unsigned :=
    UInt(UInt(UInt(UInt(UInt(UInt(UInt(UInt(UInt(UInt(UInt(UInt(UInt(UInt(UInt(UInt(UInt(UInt(UInt(UInt(UInt(UInt(UInt(UInt(UInt(UTerm, B1), B0), B1), B1), B0), B1), B1), B1), B0), B0), B0), B1), B1), B0), B1), B1), B0), B0), B0), B0), B0), B0), B0), B0), B0)

  // src/consts.rs:14
  const U48000000: Unsigned :=
    UInt(UInt(UInt(UInt(UInt(UInt(UInt(UInt(UInt(UInt(UInt(UInt(UInt(UInt(UInt(UInt(UInt(UInt(UInt(UInt(UInt(UInt(UInt(UInt(UInt(UInt(UTerm, B1), B0), B1), B1), B0), B1), B1), B1), B0), B0), B0), B1), B1), B0), B1), B1), B0), B0), B0), B0), B0), B0), B0), B0), B0), B0)

  /** The markers as numbers: `typenum`'s own `U1000`, `U32768` and
    * `U1000000` for Hz1000, Hz32768 and Mhz1, and the constants above for the
    * rest (`MarkerValues` shows that each spelling denotes its number). */
  const Hz1000: nat := 1000
  const Hz32768: nat := 32768
  const Mhz1: nat := 1000000
  const Mhz7: nat := 7000000
  const Mhz11: nat := 11000000
  const Mhz14: nat := 14000000
  const Mhz21: nat := 21000000
  const Mhz24: nat := 24000000
  const Mhz48: nat := 48000000

  lemma {:induction false} ValueU7000000()
    ensures Value(U7000000) == 7000000
  {
    assert Value(U7000000.high.high.high.high.high.high.high.high.high.high.high.high.high.high.high.high.high.high) == 26;
    assert Value(U7000000.high.high.high.high.high.high.high.high.high.high.high.high) == 1708;
    assert Value(U7000000.high.high.high.high.high.high) == 109375;
  }

  lemma {:induction false} ValueU11000000()
    ensures Value(U11000000) == 11000000
  {
    assert Value(U11000000.high.high.high.high.high.high.high.high.high.high.high.high.high.high.high.high.high.high) == 41;
    assert Value(U11000000.high.high.high.high.high.high.high.high.high.high.high.high) == 2685;
    assert Value(U11000000.high.high.high.high.high.high) == 171875;
  }

  lemma {:induction false} ValueU14000000()
    ensures Value(U14000000) == 14000000
  {
    assert Value(U14000000.high.high.high.high.high.high.high.high.high.high.high.high.high.high.high.high.high.high) == 53;
    assert Value(U14000000.high.high.high.high.high.high.high.high.high.high.high.high) == 3417;
    assert Value(U14000000.high.high.high.high.high.high) == 218750;
  }

  lemma {:induction false} ValueU21000000()
    ensures Value(U21000000) == 21000000
  {
    assert Value(U21000000.high.high.high.high.high.high.high.high.high.high.high.high.high.high.high.high.high.high) == 80;
    assert Value(U21000000.high.high.high.high.high.high.high.high.high.high.high.high) == 5126;
    assert Value(U21000000.high.high.high.high.high.high) == 328125;
  }

  lemma {:induction false} ValueU24000000()
    ensures Value(U24000000) == 24000000
  {
    assert Value(U24000000.high.high.high.high.high.high.high.high.high.high.high.high.high.high.high.high.high.high) == 91;
    assert Value(U24000000.high.high.high.high.high.high.high.high.high.high.high.high) == 5859;
    assert Value(U24000000.high.high.high.high.high.high) == 375000;
  }

  lemma {:induction false} ValueU48000000()
    ensures Value(U48000000) == 48000000
  {
    assert Value(U48000000.high.high.high.high.high.high.high.high.high.high.high.high.high.high.high.high.high.high) == 183;
    assert Value(U48000000.high.high.high.high.high.high.high.high.high.high.high.high) == 11718;
    assert Value(U48000000.high.high.high.high.high.high) == 750000;
  }

  /** The `typenum` spellings denote the frequencies the markers name. */
  lemma {:induction false} MarkerValues()
    ensures Value(U7000000) == Mhz7 && Value(U11000000) == Mhz11 && Value(U14000000) == Mhz14
    ensures Value(U21000000) == Mhz21 && Value(U24000000) == Mhz24 && Value(U48000000) == Mhz48
  {
    ValueU7000000(); ValueU11000000(); ValueU14000000();
    ValueU21000000(); ValueU24000000(); ValueU48000000();
  }

  /** `U48000000` is `U24000000` with one more `B0` appended, i.e. twice its value. */
  lemma {:induction false} DoubledBand()
    ensures U48000000 == UInt(U24000000, B0)
    ensures Value(U48000000) == 2 * Value(U24000000)
  {
  }
}

/** The clock tokens of the driver (src/cmu/macros.rs, src/cmu/mod.rs).
  *
  * In the driver every clock is a zero-sized value whose state lives in its type
  * parameters, and every operation consumes the value and returns it at a new
  * type. Here that state is an ordinary value: a `Token` records which clock it
  * is (`domain`), which of the three macro shapes declared it, and the type
  * parameters of that shape. */
module CmuClocks {
  import opened CmuRegisters
  import Consts

  /** A type parameter that is a state marker or a `typenum` number: the
    * `Frequency` of a source, the `Division` of a divider. */
  datatype Marker = Off | Uninitialized | U(n: nat)

  /** Every clock of InitialCmuState. */
  datatype Domain =
    | HfClk | HfCoreClk | HfPerClk
    | HfCoreClkAes | HfCoreClkDma | HfCoreClkUsb | HfCoreClkLeDiv | HfCoreClkUsbC
    | HfPerClkAcmp0 | HfPerClkAdc0 | HfPerClkGpio | HfPerClkI2c0 | HfPerClkIdac0 | HfPerClkPrs
    | HfPerClkTimer0 | HfPerClkTimer1 | HfPerClkTimer2 | HfPerClkUsart0 | HfPerClkUsart1 | HfPerClkVcmp
    | LfaClk | LfaClkRtc | LfbClk | LfbClkLeuart0 | LfcClk | LfcClkUsbLe
    | HfRco | AuxHfRco | LfRco | ULfRco | UsHfRco | UsHfRcoDiv | HfXo | LfXo

  /** The three macros that declare clocks. */
  datatype Shape = SourceShape | SwitchShape | SwitchDivideShape

  /** The source parameter of a switch: a state marker while nothing feeds it,
    * otherwise (a copy of) the token of the clock it borrows. */
  datatype Upstream = NoSource(state: Marker) | Borrowed(token: Token)

  /** clock_source! `Name<Frequency>`, clock_switch! `Name<Source>` and
    * clock_switch_and_divide! `Name<Source, Division>`. */
  datatype Token =
    | Source(domain: Domain, frequency: Marker)
    | Switch(domain: Domain, source: Upstream)
    | SwitchDivide(domain: Domain, source: Upstream, division: Marker)

  /** Which macro declares each clock. */
  function ShapeOf(d: Domain): Shape
  {
    match d
    case HfRco | AuxHfRco | LfRco | ULfRco | UsHfRco | HfXo | LfXo => SourceShape
    case HfClk | HfCoreClk | HfPerClk | HfCoreClkLeDiv | LfaClkRtc | LfbClkLeuart0 | UsHfRcoDiv => SwitchDivideShape
    case _ => SwitchShape
  }

  /** A token of the Rust type of clock `d`. */
  predicate Typed(t: Token, d: Domain)
  {
    t.domain == d &&
    match t
    case Source(_, _) => ShapeOf(d) == SourceShape
    case Switch(_, _) => ShapeOf(d) == SwitchShape
    case SwitchDivide(_, _, _) => ShapeOf(d) == SwitchDivideShape
  }

  /** The `Clock` impls: a source is a clock when its frequency is a number, a
    * switch when its source is a clock, a divider when in addition its division
    * is a number. A division by `U0` is never constructed and is excluded. */
  predicate IsClock(t: Token)
    ensures IsClock(t) ==> !AllMarkers(t, Off) && !AllMarkers(t, Uninitialized)
  {
    match t
    case Source(_, f) => f.U?
    case Switch(_, s) => s.Borrowed? && IsClock(s.token)
    case SwitchDivide(_, s, d) => s.Borrowed? && IsClock(s.token) && d.U? && d.n > 0
  }

  /** `Clock::FREQUENCY`, exactly. */
  function Frequency(t: Token): (f: real)
    requires IsClock(t)
    ensures f >= 0.0
    ensures t.Switch? ==> f == Frequency(t.source.token)
  {
    match t
    case Source(_, f) => f.n as real
    case Switch(_, s) => Frequency(s.token)
    case SwitchDivide(_, s, d) => Frequency(s.token) / (d.n as real)
  }

  /** 2 to the power `k`. */
  function Pow2(k: nat): (p: nat)
    ensures p >= 1
  {
    if k == 0 then 1 else 2 * Pow2(k - 1)
  }

  /** The divisions a prescaler field can encode: the powers of two. */
  predicate IsPow2(n: nat)
    decreases n
  {
    n == 1 || (n >= 2 && n % 2 == 0 && IsPow2(n / 2))
  }

  /** The code a prescaler field holds for division `n` (the `hfclk<n>` and
    * `div<n>` field writers): its base-2 logarithm. */
  function Log2(n: nat): (k: nat)
    requires IsPow2(n)
    ensures Pow2(k) == n
    decreases n
  {
    if n == 1 then 0 else 1 + Log2(n / 2)
  }

  /** Every code denotes a division, and the division gives back the code. */
  lemma {:induction false} Log2OfPow2(k: nat)
    ensures IsPow2(Pow2(k)) && Log2(Pow2(k)) == k
  {
    if k > 0 {
      Log2OfPow2(k - 1);
    }
  }

  /** A division of at most 2^k has a code of at most k, so it fits a field
    * that can hold k. */
  lemma {:induction false} Log2Bound(n: nat, k: nat)
    requires IsPow2(n) && n <= Pow2(k)
    ensures Log2(n) <= k
  {
    if n > 1 {
      Log2Bound(n / 2, k - 1);
    }
  }

  /** The largest divisions of the prescaler fields. */
  lemma PrescalerLimits()
    ensures Pow2(3) == 8 && Pow2(9) == 512 && Pow2(15) == 32768
  {
    assert Pow2(3) == 8;
    assert Pow2(9) == 64 * Pow2(3);
    assert Pow2(15) == 64 * Pow2(9);
  }

  /** The code of a division the prescaler fields allow fits the field: at
    * most 3 for divisions up to 8, 9 up to 512, 15 up to 32768. */
  lemma PrescalerCodeFits(n: nat)
    requires IsPow2(n) && n <= 32768
    ensures n <= 8 ==> Log2(n) <= 3
    ensures n <= 512 ==> Log2(n) <= 9
    ensures Log2(n) <= 15
  {
    PrescalerLimits();
    if n <= 8 {
      Log2Bound(n, 3);
    }
    if n <= 512 {
      Log2Bound(n, 9);
    }
    Log2Bound(n, 15);
  }

  /** The oscillator at the bottom of a clock's chain of sources. */
  function Root(t: Token): (r: Token)
    requires IsClock(t)
    ensures r.Source? && IsClock(r)
  {
    match t
    case Source(_, _) => t
    case Switch(_, s) => Root(s.token)
    case SwitchDivide(_, s, _) => Root(s.token)
  }

  /** The product of the divisions along a clock's chain of sources. */
  function TotalDivision(t: Token): (n: nat)
    requires IsClock(t)
    ensures n >= 1
  {
    match t
    case Source(_, _) => 1
    case Switch(_, s) => TotalDivision(s.token)
    case SwitchDivide(_, s, d) => TotalDivision(s.token) * d.n
  }

  lemma DivideTwice(a: real, b: real, c: real)
    requires b > 0.0 && c > 0.0
    ensures a / b / c == a / (b * c)
  {
    assert a / b / c * (b * c) == a;
  }

  /** Frequencies compose exactly: every clock runs at its oscillator's frequency
    * divided by the product of the divisions between them. */
  lemma {:induction false} FrequencyFromRoot(t: Token)
    requires IsClock(t)
    ensures Frequency(t) == Frequency(Root(t)) / (TotalDivision(t) as real)
  {
    if t.Switch? {
      FrequencyFromRoot(t.source.token);
    } else if t.SwitchDivide? {
      var s := t.source.token;
      FrequencyFromRoot(s);
      var a, b, c := Frequency(Root(s)), TotalDivision(s) as real, t.division.n as real;
      assert Frequency(t) == Frequency(s) / c == a / b / c;
      DivideTwice(a, b, c);
      assert (TotalDivision(s) * t.division.n) as real == b * c;
    }
  }

  /** A clock fed by a running oscillator runs: its frequency is positive and at
    * most the oscillator's. */
  lemma {:induction false} FrequencyBounds(t: Token)
    requires IsClock(t) && Root(t).frequency.n > 0
    ensures 0.0 < Frequency(t) <= Frequency(Root(t))
  {
    FrequencyFromRoot(t);
    DivideBounds(Frequency(Root(t)), TotalDivision(t) as real);
  }

  /** Dividing a positive number by at least one keeps it positive and no larger. */
  lemma DivideBounds(a: real, n: real)
    requires a > 0.0 && n >= 1.0
    ensures 0.0 < a / n <= a
  {
    assert a / n * n == a;
  }

  /** The clock tree: which clocks a clock may take its source from, as the
    * driver's method signatures allow. */
  predicate Feeds(source: Domain, sink: Domain)
  {
    match sink
    case HfClk => source in {HfRco, HfXo, LfRco, LfXo, UsHfRcoDiv}
    case HfCoreClk | HfPerClk => source == HfClk
    case HfCoreClkAes | HfCoreClkDma | HfCoreClkUsb | HfCoreClkLeDiv => source == HfCoreClk
    case HfCoreClkUsbC => source in {LfXo, LfRco, UsHfRco}
    case LfaClk | LfbClk => source in {LfRco, LfXo, ULfRco, HfCoreClkLeDiv}
    case LfaClkRtc => source == LfaClk
    case LfbClkLeuart0 => source == LfbClk
    case LfcClk => source in {LfRco, LfXo}
    case LfcClkUsbLe => source == LfcClk
    case UsHfRcoDiv => source == UsHfRco
    case HfRco | AuxHfRco | LfRco | ULfRco | UsHfRco | HfXo | LfXo => false
    case _ => source == HfPerClk
  }

  /** How far a clock sits from the oscillators. */
  function Level(d: Domain): nat
  {
    match d
    case HfRco | AuxHfRco | LfRco | ULfRco | UsHfRco | HfXo | LfXo => 0
    case UsHfRcoDiv | LfcClk => 1
    case HfClk | HfCoreClkUsbC | LfcClkUsbLe => 2
    case HfCoreClk | HfPerClk => 3
    case HfCoreClkLeDiv => 4
    case LfaClk | LfbClk => 5
    case LfaClkRtc | LfbClkLeuart0 => 6
    case _ => 4
  }

  /** The clock tree has no cycle: every edge climbs a level, and only the
    * oscillators have no source. */
  lemma TreeIsAcyclic(source: Domain, sink: Domain)
    ensures Feeds(source, sink) ==> Level(source) < Level(sink)
    ensures ShapeOf(sink) == SourceShape ==> !Feeds(source, sink)
  {
    if Feeds(source, sink) {
      EdgeClimbs(source, sink);
    }
  }

  /** Every edge of the clock tree climbs a level. */
  lemma EdgeClimbs(source: Domain, sink: Domain)
    requires Feeds(source, sink)
    ensures Level(source) < Level(sink)
  {
    if sink == HfClk {
      assert Level(source) <= 1;
    } else if sink == LfaClk || sink == LfbClk {
      assert Level(source) <= 4;
    } else if sink == HfCoreClkUsbC || sink == LfcClk {
      assert Level(source) == 0;
    }
  }

  /** A token whose every borrowed source is a token of the right type for the
    * edge it sits on. */
  predicate WellWired(t: Token)
  {
    Typed(t, t.domain) &&
    match t
    case Source(_, _) => true
    case Switch(_, s) => s.Borrowed? ==> Feeds(s.token.domain, t.domain) && WellWired(s.token)
    case SwitchDivide(_, s, _) => s.Borrowed? ==> Feeds(s.token.domain, t.domain) && WellWired(s.token)
  }

  /** Along a well-wired chain the root is an oscillator, strictly below the
    * clock unless the clock is that oscillator. */
  lemma {:induction false} RootIsOscillator(t: Token)
    requires IsClock(t) && WellWired(t)
    ensures ShapeOf(Root(t).domain) == SourceShape
    ensures Root(t) == t || Level(Root(t).domain) < Level(t.domain)
  {
    match t
    case Source(_, _) =>
    case Switch(_, s) =>
      RootIsOscillator(s.token);
      TreeIsAcyclic(s.token.domain, t.domain);
    case SwitchDivide(_, s, _) =>
      RootIsOscillator(s.token);
      TreeIsAcyclic(s.token.domain, t.domain);
  }

  /** hfclk.rs:52-70: the source each HFCLKSEL code selects. */
  function HfClkSourceDomain(sel: HfClkSel): (d: Domain)
    ensures Feeds(d, HfClk)
  {
    match sel
    case SelHfrco => HfRco
    case SelHfxo => HfXo
    case SelLfrco => LfRco
    case SelLfxo => LfXo
    case SelUsHfrcoDiv2 => UsHfRcoDiv
  }

  /** hfcoreclkusbc.rs:37-39: the source each USBCCLKSEL code selects. */
  function UsbcSourceDomain(sel: UsbcClkSel): (d: Domain)
    ensures Feeds(d, HfCoreClkUsbC)
  {
    match sel
    case SelUsbcLfxo => LfXo
    case SelUsbcLfrco => LfRco
    case SelUsbcUsHfrco => UsHfRco
  }

  /** The sources of LFACLK and LFBCLK. */
  datatype LfSource = LfFromLfRco | LfFromLfXo | LfFromULfRco | LfFromHfCoreClkLeDiv

  function LfSourceDomain(s: LfSource): (d: Domain)
    ensures Feeds(d, LfaClk) && Feeds(d, LfbClk)
  {
    match s
    case LfFromLfRco => LfRco
    case LfFromLfXo => LfXo
    case LfFromULfRco => ULfRco
    case LfFromHfCoreClkLeDiv => HfCoreClkLeDiv
  }

  /** The (LFA or LFB field, LFAE or LFBE bit) pair that selects an LF source:
    * ULFRCO is the one selected through the extended bit. */
  function LfSelection(s: LfSource): (r: (LfSel, bool))
    ensures r != (LfDisabled, false)
    ensures r.1 <==> s == LfFromULfRco
  {
    match s
    case LfFromLfRco => (LfLfrco, false)
    case LfFromLfXo => (LfLfxo, false)
    case LfFromULfRco => (LfDisabled, true)
    case LfFromHfCoreClkLeDiv => (LfHfCoreClkLeDiv2, false)
  }

  /** Different sources are encoded differently, and none as "disabled". */
  lemma {:induction false} LfSelectionDistinct(a: LfSource, b: LfSource)
    ensures LfSelection(a) == LfSelection(b) ==> a == b
    ensures LfSelection(a) != (LfDisabled, false)
  {
  }

  /** The sources of LFCCLK. */
  datatype LfcSource = LfcFromLfRco | LfcFromLfXo

  function LfcSourceDomain(s: LfcSource): (d: Domain)
    ensures Feeds(d, LfcClk)
  {
    match s
    case LfcFromLfRco => LfRco
    case LfcFromLfXo => LfXo
  }

  function LfcSelection(s: LfcSource): (sel: LfcSel)
    ensures sel != LfcDisabled
  {
    match s
    case LfcFromLfRco => LfcLfrco
    case LfcFromLfXo => LfcLfxo
  }

  /** The HFCORECLK sub-clocks gated by one HFCORECLKEN0 bit each (hfcoreclk.rs:104-106). */
  predicate IsCoreSubclock(g: CoreGate)
  {
    g == Aes || g == Dma || g == Usb
  }

  function CoreGateDomain(g: CoreGate): (d: Domain)
    requires IsCoreSubclock(g)
    ensures Feeds(HfCoreClk, d) && ShapeOf(d) == SwitchShape
  {
    match g
    case Aes => HfCoreClkAes
    case Dma => HfCoreClkDma
    case Usb => HfCoreClkUsb
  }

  /** The HFPERCLK sub-clocks, one per HFPERCLKEN0 bit (hfperclk.rs:81-157). */
  function PerGateDomain(g: PerGate): (d: Domain)
    ensures Feeds(HfPerClk, d) && ShapeOf(d) == SwitchShape
  {
    match g
    case Timer0 => HfPerClkTimer0
    case Timer1 => HfPerClkTimer1
    case Timer2 => HfPerClkTimer2
    case Usart0 => HfPerClkUsart0
    case Usart1 => HfPerClkUsart1
    case Acmp0 => HfPerClkAcmp0
    case Prs => HfPerClkPrs
    case Idac0 => HfPerClkIdac0
    case Gpio => HfPerClkGpio
    case Vcmp => HfPerClkVcmp
    case Adc0 => HfPerClkAdc0
    case I2c0 => HfPerClkI2c0
  }

  lemma {:induction false} GateDomainsDistinct(g: PerGate, h: PerGate)
    ensures PerGateDomain(g) == PerGateDomain(h) ==> g == h
  {
  }

  /** The clocks that declare `_disable`, which their `Drop` runs. */
  predicate HasDestructor(d: Domain)
  {
    d in {HfRco, AuxHfRco, HfXo, LfXo, HfCoreClk, HfCoreClkAes, HfCoreClkDma, HfCoreClkUsb,
          HfCoreClkLeDiv, HfCoreClkUsbC, LfbClk, LfbClkLeuart0, LfcClk, LfcClkUsbLe}
  }

  /** The register accesses of each `_disable`. */
  function DisableEvents(d: Domain): seq<Event>
    requires HasDestructor(d)
  {
    match d
    case HfRco => [Write(OscEnCmd(Disable(Hfrco)))]
    case AuxHfRco => [Write(OscEnCmd(Disable(AuxHfrco)))]
    case HfXo => [Write(OscEnCmd(Disable(Hfxo)))]
    case LfXo => [Write(OscEnCmd(Disable(Lfxo)))]
    case HfCoreClk => []
    case HfCoreClkAes | HfCoreClkDma | HfCoreClkUsb | HfCoreClkLeDiv | HfCoreClkUsbC => [Write(HfCoreClkEn0)]
    case LfbClk | LfcClk => [Write(LfClkSel)]
    case LfbClkLeuart0 => [Poll(SyncBusy(SyncLfbClkEn0), false), Write(LfbClkEn0)]
    case LfcClkUsbLe => [Poll(SyncBusy(SyncLfcClkEn0), false), Write(LfcClkEn0)]
  }

  function WriteCount(t: seq<Event>): nat
  {
    if t == [] then 0 else (if t[0].Write? then 1 else 0) + WriteCount(t[1..])
  }

  /** Every destructor issues exactly one register write, except HFCORECLK's,
    * which issues none, and it keeps the synchronisation discipline. */
  lemma {:induction false} DestructorWritesOnce(d: Domain)
    requires HasDestructor(d)
    ensures WriteCount(DisableEvents(d)) == if d == HfCoreClk then 0 else 1
    ensures SyncDiscipline(DisableEvents(d))
  {
    var t := DisableEvents(d);
    if d == LfbClkLeuart0 || d == LfcClkUsbLe {
      assert t[1..][1..] == [];
      assert WriteCount(t[1..]) == 1 + WriteCount(t[1..][1..]);
      assert PolledBefore(t, 0) && PolledBefore(t, 1);
    } else if d != HfCoreClk {
      assert t[1..] == [];
      assert PolledBefore(t, 0);
    }
  }

  /** Every token of a clock is in the state all its markers name. */
  predicate AllMarkers(t: Token, m: Marker)
  {
    match t
    case Source(_, f) => f == m
    case Switch(_, s) => s == NoSource(m)
    case SwitchDivide(_, s, v) => s == NoSource(m) && v == m
  }

  /** InitialCmuState, field by field. */
  datatype InitialCmuState = InitialCmuState(
    hfclk: Token, hfcoreclk: Token, hfperclk: Token,
    hfcoreclkaes: Token, hfcoreclkdma: Token, hfcoreclkusb: Token, hfcoreclklediv: Token, hfcoreclkusbc: Token,
    hfperclkacmp0: Token, hfperclkadc0: Token, hfperclkgpio: Token, hfperclki2c0: Token,
    hfperclkidac0: Token, hfperclkprs: Token, hfperclktimer0: Token, hfperclktimer1: Token,
    hfperclktimer2: Token, hfperclkusart0: Token, hfperclkusart1: Token, hfperclkvcmp: Token,
    lfaclk: Token, lfaclkrtc: Token, lfbclk: Token, lfbclkleuart0: Token, lfcclk: Token, lfcclkusble: Token,
    hfrco: Token, auxhfrco: Token, lfrco: Token, ulfrco: Token, ushfrco: Token, ushfrcodiv: Token,
    hfxo: Token, lfxo: Token)

  /** The field of InitialCmuState that holds clock `d`. */
  function TokenOf(s: InitialCmuState, d: Domain): Token
  {
    match d
    case HfClk => s.hfclk
    case HfCoreClk => s.hfcoreclk
    case HfPerClk => s.hfperclk
    case HfCoreClkAes => s.hfcoreclkaes
    case HfCoreClkDma => s.hfcoreclkdma
    case HfCoreClkUsb => s.hfcoreclkusb
    case HfCoreClkLeDiv => s.hfcoreclklediv
    case HfCoreClkUsbC => s.hfcoreclkusbc
    case HfPerClkAcmp0 => s.hfperclkacmp0
    case HfPerClkAdc0 => s.hfperclkadc0
    case HfPerClkGpio => s.hfperclkgpio
    case HfPerClkI2c0 => s.hfperclki2c0
    case HfPerClkIdac0 => s.hfperclkidac0
    case HfPerClkPrs => s.hfperclkprs
    case HfPerClkTimer0 => s.hfperclktimer0
    case HfPerClkTimer1 => s.hfperclktimer1
    case HfPerClkTimer2 => s.hfperclktimer2
    case HfPerClkUsart0 => s.hfperclkusart0
    case HfPerClkUsart1 => s.hfperclkusart1
    case HfPerClkVcmp => s.hfperclkvcmp
    case LfaClk => s.lfaclk
    case LfaClkRtc => s.lfaclkrtc
    case LfbClk => s.lfbclk
    case LfbClkLeuart0 => s.lfbclkleuart0
    case LfcClk => s.lfcclk
    case LfcClkUsbLe => s.lfcclkusble
    case HfRco => s.hfrco
    case AuxHfRco => s.auxhfrco
    case LfRco => s.lfrco
    case ULfRco => s.ulfrco
    case UsHfRco => s.ushfrco
    case UsHfRcoDiv => s.ushfrcodiv
    case HfXo => s.hfxo
    case LfXo => s.lfxo
  }

  /** The token of clock `d` in all-`m` state. */
  function Initial(d: Domain, m: Marker): (t: Token)
    ensures Typed(t, d) && AllMarkers(t, m)
  {
    match ShapeOf(d)
    case SourceShape => Source(d, m)
    case SwitchShape => Switch(d, NoSource(m))
    case SwitchDivideShape => SwitchDivide(d, NoSource(m), m)
  }

  /** The token each clock starts in (see `InitialTokens`). */
  function InitialToken(d: Domain): Token
  {
    if d in {HfClk, HfCoreClk, HfPerClk} then Initial(d, Uninitialized)
    else if d == HfRco then Source(HfRco, U(Consts.Mhz14))
    else if d == ULfRco then Source(ULfRco, U(Consts.Hz1000))
    else Initial(d, Off)
  }

  /** The state each clock starts in: the HF trunk (HFCLK, HFCORECLK, HFPERCLK)
    * uninitialised, HFRCO running at 14 MHz, ULFRCO at 1 kHz, every other clock
    * off. Only those two oscillators start as clocks. */
  lemma InitialTokens(d: Domain)
    ensures Typed(InitialToken(d), d)
    ensures IsClock(InitialToken(d)) <==> d == HfRco || d == ULfRco
    ensures d == HfRco ==> Frequency(InitialToken(d)) == 14000000.0
    ensures d == ULfRco ==> Frequency(InitialToken(d)) == 1000.0
    ensures d in {HfClk, HfCoreClk, HfPerClk} ==> AllMarkers(InitialToken(d), Uninitialized)
    ensures d !in {HfClk, HfCoreClk, HfPerClk, HfRco, ULfRco} ==> AllMarkers(InitialToken(d), Off)
  {
  }

  /** The state whose field for each clock `d` holds `f(d)`. */
  function StateOf(f: Domain -> Token): InitialCmuState
  {
    InitialCmuState(
      f(HfClk), f(HfCoreClk), f(HfPerClk),
      f(HfCoreClkAes), f(HfCoreClkDma), f(HfCoreClkUsb), f(HfCoreClkLeDiv), f(HfCoreClkUsbC),
      f(HfPerClkAcmp0), f(HfPerClkAdc0), f(HfPerClkGpio), f(HfPerClkI2c0),
      f(HfPerClkIdac0), f(HfPerClkPrs), f(HfPerClkTimer0), f(HfPerClkTimer1),
      f(HfPerClkTimer2), f(HfPerClkUsart0), f(HfPerClkUsart1), f(HfPerClkVcmp),
      f(LfaClk), f(LfaClkRtc), f(LfbClk), f(LfbClkLeuart0), f(LfcClk), f(LfcClkUsbLe),
      f(HfRco), f(AuxHfRco), f(LfRco), f(ULfRco), f(UsHfRco), f(UsHfRcoDiv), f(HfXo), f(LfXo))
  }

  /** Each clock's field of `StateOf(f)` is its own: `f` at that clock. */
  lemma StateOfFields(f: Domain -> Token, d: Domain)
    ensures TokenOf(StateOf(f), d) == f(d)
  {
  }

  /** InitialCmuState::get_initial_state: touches no register. */
  function GetInitialState(): (r: InitialCmuState)
    ensures r.hfrco == Source(HfRco, U(Consts.Mhz14))
    ensures r.ulfrco == Source(ULfRco, U(Consts.Hz1000))
  {
    StateOf(InitialToken)
  }

  /** Every clock has exactly one field of the initial state, holding its
    * initial token. */
  lemma InitialStateFields(d: Domain)
    ensures TokenOf(GetInitialState(), d) == InitialToken(d)
  {
    StateOfFields(InitialToken, d);
  }
}

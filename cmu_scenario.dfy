/** The clock chain the panic handler brings up before it reports over LEUART0
  * (src/panic.rs:14-26): HFRCO at 21 MHz, HFCLK undivided from it, HFCORECLK
  * undivided from HFCLK, HFCORECLKLEDIV dividing by 4, LFBCLK from that, and
  * LFBCLKLEUART0 dividing by 8. */
module CmuScenario {
  import opened CmuRegisters
  import opened CmuClocks
  import opened DeviceInformation
  import CmuHfrco
  import CmuHfClk
  import CmuHfCoreClk
  import CmuHfCoreClkLe
  import CmuLfb
  import Consts

  /** HFCLK undivided from a source (panic.rs:15-17). */
  function HfClkChain(hfrco: Token): Token
  {
    SwitchDivide(HfClk, Borrowed(hfrco), U(1))
  }

  /** HFCORECLK undivided from HFCLK, and HFCORECLKLEDIV dividing it by 4
    * (panic.rs:18-22). */
  function LeDivChain(hfclk: Token): Token
  {
    SwitchDivide(HfCoreClkLeDiv, Borrowed(SwitchDivide(HfCoreClk, Borrowed(hfclk), U(1))), U(4))
  }

  /** LFBCLK from HFCORECLKLEDIV, and LFBCLKLEUART0 dividing it by 8
    * (panic.rs:23-26). */
  function LeuartChain(lediv: Token): Token
  {
    SwitchDivide(LfbClkLeuart0, Borrowed(Switch(LfbClk, Borrowed(lediv))), U(8))
  }

  /** The high-frequency clocks the LEUART0 chain starts from. */
  function PanicLeDivClock(): Token
  {
    LeDivChain(HfClkChain(Source(HfRco, U(21000000))))
  }

  /** The LEUART0 clock the chain produces, as a value. */
  function PanicLeuartClock(): Token
  {
    LeuartChain(PanicLeDivClock())
  }

  /** HFCLK may take HFRCO as its source. */
  lemma HfClkChainWired(hfrco: Token)
    requires Typed(hfrco, HfRco) && IsClock(hfrco)
    ensures Typed(HfClkChain(hfrco), HfClk) && IsClock(HfClkChain(hfrco))
    ensures WellWired(HfClkChain(hfrco)) && Root(HfClkChain(hfrco)) == hfrco
  {
  }

  /** HFCORECLK may take HFCLK as its source, and HFCORECLKLEDIV HFCORECLK. */
  lemma LeDivChainWired(hfclk: Token)
    requires Typed(hfclk, HfClk) && IsClock(hfclk) && WellWired(hfclk)
    ensures Typed(LeDivChain(hfclk), HfCoreClkLeDiv) && IsClock(LeDivChain(hfclk))
    ensures WellWired(LeDivChain(hfclk)) && Root(LeDivChain(hfclk)) == Root(hfclk)
  {
  }

  /** LFBCLK may take HFCORECLKLEDIV as its source, and LFBCLKLEUART0 LFBCLK. */
  lemma LeuartChainWired(lediv: Token)
    requires Typed(lediv, HfCoreClkLeDiv) && IsClock(lediv) && WellWired(lediv)
    ensures IsClock(LeuartChain(lediv)) && WellWired(LeuartChain(lediv))
    ensures Root(LeuartChain(lediv)) == Root(lediv)
  {
  }

  /** The chain is well wired and rooted at HFRCO. */
  lemma PanicChainWiring()
    ensures IsClock(PanicLeuartClock()) && WellWired(PanicLeuartClock())
    ensures Root(PanicLeuartClock()) == Source(HfRco, U(21000000))
  {
    var hfrco := Source(HfRco, U(21000000));
    HfClkChainWired(hfrco);
    LeDivChainWired(HfClkChain(hfrco));
    LeuartChainWired(LeDivChain(HfClkChain(hfrco)));
  }

  /** The chain divides by 32 in all, and so runs LEUART0 at 656,250 Hz. */
  lemma {:induction false} PanicChainFrequency()
    ensures IsClock(PanicLeuartClock())
    ensures TotalDivision(PanicLeuartClock()) == 32
    ensures Frequency(PanicLeuartClock()) == 656250.0
  {
    var hfrco := Source(HfRco, U(21000000));
    var hfclk := SwitchDivide(HfClk, Borrowed(hfrco), U(1));
    var hfcoreclk := SwitchDivide(HfCoreClk, Borrowed(hfclk), U(1));
    var lediv := SwitchDivide(HfCoreClkLeDiv, Borrowed(hfcoreclk), U(4));
    var lfb := Switch(LfbClk, Borrowed(lediv));
    assert Frequency(hfcoreclk) == 21000000.0 && TotalDivision(hfcoreclk) == 1;
    assert Frequency(lfb) == 5250000.0 && TotalDivision(lfb) == 4;
  }

  /** panic.rs:14-17: HFRCO at 21 MHz, HFCLK undivided from it. */
  method PanicHfClk(cmu: Cmu, rom: Rom, hfrco0: Token, hfclk0: Token) returns (hfclk: Token)
    requires cmu.Valid()
    requires Typed(hfrco0, HfRco) && Typed(hfclk0, HfClk)
    modifies cmu`hfrcoBand, cmu`hfrcoTuning, cmu`status, cmu`hfclkDiv, cmu`trace
    ensures cmu.Valid()
    ensures hfclk == HfClkChain(Source(HfRco, U(21000000)))
    ensures Typed(hfclk, HfClk) && IsClock(hfclk)
    ensures cmu.hfrcoBand == Band21MHz && cmu.hfrcoTuning == HfrcoCalib(rom, Band21MHz)
    ensures cmu.status == old(cmu.status) + {HfrcoRdy} && cmu.hfclkDiv == 0
    ensures cmu.trace == old(cmu.trace) + [Write(HfrcoCtrl)] + [Write(OscEnCmd(Enable(Hfrco)))]
      + [Poll(Status(HfrcoRdy), true)] + [Write(Ctrl)] + [Write(Cmd(HfClkSelect(SelHfrco)))]
  {
    var hfrco := CmuHfrco.EnableHfRco(cmu, rom, hfrco0, Band21MHz);
    hfclk := CmuHfClk.Div(cmu, hfclk0, 1);
    hfclk := CmuHfClk.SelectSource(cmu, hfclk, SelHfrco, hfrco);
  }

  /** panic.rs:18-22: HFCORECLK undivided from HFCLK, HFCORECLKLEDIV by 4. */
  method PanicLeDiv(cmu: Cmu, hfclk: Token, hfcoreclk0: Token, lediv0: Token) returns (lediv: Token)
    requires cmu.Valid()
    requires Typed(hfclk, HfClk) && IsClock(hfclk)
    requires Typed(hfcoreclk0, HfCoreClk) && Typed(lediv0, HfCoreClkLeDiv)
    modifies cmu`hfcoreclkDiv, cmu`hfcoreclkLeDiv, cmu`hfcoreclkEn0, cmu`trace
    ensures cmu.Valid()
    ensures lediv == LeDivChain(hfclk)
    ensures Typed(lediv, HfCoreClkLeDiv) && IsClock(lediv)
    ensures cmu.hfcoreclkDiv == 0 && cmu.hfcoreclkLeDiv
    ensures cmu.hfcoreclkEn0 == old(cmu.hfcoreclkEn0) + {Le}
    ensures cmu.trace == old(cmu.trace) + [Write(HfCoreClkDiv)] + [Write(HfCoreClkDiv)] + [Write(HfCoreClkEn0)]
  {
    var hfcoreclk := CmuHfCoreClk.Div(cmu, hfcoreclk0, hfclk, 1);
    lediv := CmuHfCoreClkLe.EnableLeDiv(cmu, lediv0, hfcoreclk, 4);
    UndividedCode(cmu.hfcoreclkDiv);
  }

  /** The only prescaler code that does not divide is 0. */
  lemma UndividedCode(k: nat)
    requires Pow2(k) == 1
    ensures k == 0
  {
  }

  /** The only prescaler code dividing by 8 is 3. */
  lemma DivideByEightCode(k: nat)
    requires Pow2(k) == 8
    ensures k == 3
  {
    Log2OfPow2(k);
  }

  /** panic.rs:23-26: LFBCLK from HFCORECLKLEDIV, LEUART0 by 8. */
  method PanicLfClocks(cmu: Cmu, lediv: Token, lfb0: Token, leuart0: Token) returns (leuart: Token)
    requires cmu.Valid()
    requires Typed(lediv, HfCoreClkLeDiv) && IsClock(lediv)
    requires Typed(lfb0, LfbClk) && Typed(leuart0, LfbClkLeuart0)
    modifies cmu`lfb, cmu`lfbe, cmu`lfbPresc0Leuart0, cmu`lfbClkEn0Leuart0, cmu`syncBusy, cmu`trace
    ensures cmu.Valid()
    ensures leuart == LeuartChain(lediv)
    ensures cmu.lfb == LfHfCoreClkLeDiv2 && !cmu.lfbe
    ensures cmu.lfbPresc0Leuart0 == 3 && cmu.lfbClkEn0Leuart0
    ensures cmu.syncBusy == old(cmu.syncBusy) + {SyncLfbPresc0, SyncLfbClkEn0}
    ensures cmu.trace == old(cmu.trace) + [Write(LfClkSel)] + [Poll(SyncBusy(SyncLfbPresc0), false)]
      + [Write(LfbPresc0)] + [Poll(SyncBusy(SyncLfbClkEn0), false)] + [Write(LfbClkEn0)]
  {
    var lfb := CmuLfb.SelectSource(cmu, lfb0, LfFromHfCoreClkLeDiv, lediv);
    leuart := CmuLfb.EnableLeuart0(cmu, leuart0, lfb, 8);
    DivideByEightCode(cmu.lfbPresc0Leuart0);
  }

  /** panic.rs:14-26, from tokens in any state: the register accesses happen in
    * this order, the LEUART0 clock is the chain above, running at 656,250 Hz. */
  method PanicClocks(cmu: Cmu, rom: Rom, hfrco0: Token, hfclk0: Token, hfcoreclk0: Token,
                     lediv0: Token, lfb0: Token, leuart0: Token) returns (leuart: Token)
    requires cmu.Valid()
    requires Typed(hfrco0, HfRco) && Typed(hfclk0, HfClk) && Typed(hfcoreclk0, HfCoreClk)
    requires Typed(lediv0, HfCoreClkLeDiv) && Typed(lfb0, LfbClk) && Typed(leuart0, LfbClkLeuart0)
    modifies cmu`hfrcoBand, cmu`hfrcoTuning, cmu`status, cmu`hfclkDiv, cmu`hfcoreclkDiv
    modifies cmu`hfcoreclkLeDiv, cmu`hfcoreclkEn0, cmu`lfb, cmu`lfbe
    modifies cmu`lfbPresc0Leuart0, cmu`lfbClkEn0Leuart0, cmu`syncBusy, cmu`trace
    ensures cmu.Valid()
    ensures leuart == PanicLeuartClock()
    ensures IsClock(leuart) && Frequency(leuart) == 656250.0
    ensures cmu.trace == old(cmu.trace) + [Write(HfrcoCtrl)] + [Write(OscEnCmd(Enable(Hfrco)))]
      + [Poll(Status(HfrcoRdy), true)] + [Write(Ctrl)] + [Write(Cmd(HfClkSelect(SelHfrco)))]
      + [Write(HfCoreClkDiv)] + [Write(HfCoreClkDiv)] + [Write(HfCoreClkEn0)] + [Write(LfClkSel)]
      + [Poll(SyncBusy(SyncLfbPresc0), false)] + [Write(LfbPresc0)] + [Poll(SyncBusy(SyncLfbClkEn0), false)]
      + [Write(LfbClkEn0)]
  {
    var hfclk := PanicHfClk(cmu, rom, hfrco0, hfclk0);
    var lediv := PanicLeDiv(cmu, hfclk, hfcoreclk0, lediv0);
    leuart := PanicLfClocks(cmu, lediv, lfb0, leuart0);
    PanicChainFrequency();
  }
}

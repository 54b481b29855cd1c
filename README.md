# EFM32HG clock and GPIO drivers — a Dafny model

This project models the core of a Rust board-support crate for the EFM32 Happy Gecko
microcontroller (EFM32HG309F64). It covers two drivers.

**The clock management unit (CMU) driver.** This driver encodes the clock tree in Rust's type
system. Each clock is a zero-sized token whose type parameters record three things:

- the frequency of an oscillator;
- the upstream clock it is switched to;
- its division factor.

An operation consumes a token, writes the CMU registers and returns a token of the new type. A
token's `Drop` impl turns the clock off, and `finalize` locks it in for good. The model has:

- a `Token` datatype that mirrors the three macro shapes (source, switch, switch-and-divide);
- a `Cmu` class that stands for the register block, with its registers as fields and a ghost
  trace of register writes and busy-wait polls;
- one Dafny module per source file, whose methods do what the Rust methods do to the registers
  and to the tokens;
- the `panic.rs` clock chain as a scenario.

**The GPIO driver.** This covers:

- the old per-port `Gpio` interface in `gpio.rs`;
- the typed pins in `gpio/mod.rs`;
- the table of valid pin modes in `gpio/pin_modes.rs`, after table 26.1 of the EFM32HG
  reference manual.

The GPIO registers are the `GpioBlock` class:

- MODEL and MODEH as 32-bit words, each holding eight 4-bit mode fields;
- DOUT as the set of pins driven high;
- DIN as a 32-bit word.

The register write primitives (`WriteDoutSet`, `WriteDoutClr`, `WriteDoutTgl`) decode their bit
masks into that set.

Frequencies are exact `real`s. Division factors and prescaler codes are naturals related by
`Pow2`/`Log2`. The `typenum` frequency spellings of `consts.rs` are a binary-numeral datatype.

## Model

| member | source | states |
|---|---|---|
| CmuClocks.Log2 | src/cmu/lfa.rs:80-105 | the register code of a power-of-two divider is the exponent whose power gives back the divider |
| CmuClocks.Log2OfPow2 | src/cmu/lfa.rs:80-105 | code and divider round-trip: taking the exponent of `2^k` returns `k` |
| CmuClocks.Log2Bound | src/cmu/hfcoreclk.rs:35-52 | a divider no larger than `2^k` has a code of at most `k`, so the code fits the register field |
| CmuClocks.PrescalerCodeFits | src/cmu/lfb.rs:84-109 | every accepted divider (up to 8, 512 or 32768) gets a code that fits the 2-, 4- or 4-bit prescaler field |
| CmuClocks.Root | src/cmu/macros.rs:101-105 | following the borrowed upstream tokens of a running clock always ends at a running oscillator |
| CmuClocks.TotalDivision | src/cmu/macros.rs:101-105 | the product of the dividers along the chain is at least 1 |
| CmuClocks.IsClock | src/cmu/macros.rs:9-105 | a source implements `Clock` when its frequency is a number, a switch or divider when its source does; a token still off or uninitialised never does |
| CmuClocks.Frequency | src/cmu/macros.rs:9-105 | FREQUENCY is never negative, and a switch passes its source's frequency through unchanged |
| CmuClocks.FrequencyFromRoot | src/cmu/macros.rs:9-105 | a clock's FREQUENCY equals its root oscillator's frequency divided by the product of every divider on the way |
| CmuClocks.FrequencyBounds | src/cmu/macros.rs:101-105 | a clock fed by a running oscillator has a positive frequency no higher than that oscillator's |
| CmuClocks.TreeIsAcyclic | src/cmu/mod.rs:53-92 | every allowed upstream edge climbs strictly in level, so the clock tree has no cycle, and no oscillator has an upstream |
| CmuClocks.EdgeClimbs | src/cmu/hfclk.rs:52-70 | each edge the driver can wire goes from a lower to a higher level of the tree |
| CmuClocks.RootIsOscillator | src/cmu/mod.rs:53-92 | in a well-wired chain the root is an oscillator and sits strictly below the clock, unless it is the clock |
| CmuClocks.HfClkSourceDomain | src/cmu/hfclk.rs:52-70 | each HFCLK source selection names a clock that may feed HFCLK |
| CmuClocks.UsbcSourceDomain | src/cmu/hfcoreclkusbc.rs:37-39 | each USBC source selection names a clock that may feed HFCORECLK_USBC |
| CmuClocks.LfSourceDomain | src/cmu/lfa.rs:47-77 | each LFA/LFB source names a clock that may feed both LFACLK and LFBCLK |
| CmuClocks.LfSelection | src/cmu/lfb.rs:51-81 | every LF source is selected by a field/extension pair other than "disabled", and the extension bit is used exactly for ULFRCO |
| CmuClocks.LfSelectionDistinct | src/cmu/lfb.rs:51-81 | different LF sources produce different LFCLKSEL field values, and none of them is the disabled value |
| CmuClocks.LfcSourceDomain | src/cmu/lfc.rs:35-36 | each LFC source names a clock that may feed LFCCLK |
| CmuClocks.LfcSelection | src/cmu/lfc.rs:15-32 | selecting an LFC source never writes the disabled value |
| CmuClocks.CoreGateDomain | src/cmu/hfcoreclk.rs:104-106 | every HFCORECLK gate clock is a switch fed by HFCORECLK |
| CmuClocks.PerGateDomain | src/cmu/hfperclk.rs:81-157 | every HFPERCLK gate clock is a switch fed by HFPERCLK |
| CmuClocks.GateDomainsDistinct | src/cmu/hfperclk.rs:81-157 | distinct HFPERCLKEN0 bits gate distinct clocks |
| CmuClocks.DestructorWritesOnce | src/cmu/macros.rs:35-138 | every destructor writes exactly one register (none for HFCORECLK), and any LF write is preceded by its SYNCBUSY wait |
| CmuClocks.Initial | src/cmu/mod.rs:38-42 | an initial token has the type of its field and carries only the `Off` or `Uninitialized` marker |
| CmuClocks.InitialTokens | src/cmu/mod.rs:53-92 | at reset only HFRCO (14 MHz) and ULFRCO (1000 Hz) run, HFCLK/HFCORECLK/HFPERCLK are `Uninitialized`, and every other clock is `Off` |
| CmuClocks.GetInitialState | src/cmu/mod.rs:94-103 | `get_initial_state` hands out HFRCO running at 14 MHz and ULFRCO at 1000 Hz |
| CmuClocks.InitialStateFields | src/cmu/mod.rs:94-103 | each field of the state returned by `get_initial_state` is the reset token for that clock |
| CmuClocks.StateOfFields | src/cmu/mod.rs:53-92 | building the state from one token per clock puts each token in its own field |
| CmuRegisters.SyncBitOf | src/cmu/lfa.rs:98-100 | exactly the five low-frequency registers LFAPRESC0, LFACLKEN0, LFBPRESC0, LFBCLKEN0 and LFCCLKEN0 have a SYNCBUSY bit |
| CmuRegisters.DisciplineExtends | src/cmu/lfb.rs:102-104 | appending a write to a synchronised register right after its SYNCBUSY wait keeps the wait-before-write discipline |
| CmuRegisters.DisciplineConcat | src/cmu/lfc.rs:68-76 | joining two traces that both follow the discipline gives a trace that does too |
| CmuRegisters.Cmu.WaitSet | src/cmu/lfrco.rs:26 | waiting on a STATUS ready flag returns with that flag set and records the poll |
| CmuRegisters.Cmu.WaitClear | src/cmu/lfa.rs:98 | waiting on a SYNCBUSY bit returns with that bit clear and records the poll |
| CmuRegisters.Cmu.RecordSynced | src/cmu/lfa.rs:98-100 | a synchronised register may only be written right after its SYNCBUSY wait, and the write sets that bit again |
| CmuRegisters.Cmu.StartOscillator | src/cmu/lfrco.rs:16-29 | enabling an oscillator writes OSCENCMD and then waits until its ready flag is set |
| CmuRegisters.Cmu.WriteOscEnCmd | src/cmu/lfrco.rs:31-37 | writing OSCENCMD records one write; as an assumed hardware reaction (see Left out), a disable command clears the oscillator's ready flag and an enable command alone leaves STATUS unchanged |
| CmuRegisters.Cmu.WriteCmd | src/cmu/hfcoreclkusbc.rs:14-34 | writing CMD records one write; as an assumed hardware reaction (see Left out), a USBC select command clears the old USBC-selected flags |
| CmuRegisters.Cmu.WriteHfCoreClkDiv | src/cmu/hfcoreclk.rs:35-52 | a full write of HFCORECLKDIV sets the divider code and resets the LE divider bit to 0 |
| CmuRegisters.Cmu.ModifyHfCoreClkEn0 | src/cmu/hfcoreclk.rs:70-102 | a read-modify-write of HFCORECLKEN0 changes only the one gate bit |
| CmuRegisters.Cmu.ModifyHfPerClkEn0 | src/cmu/hfperclk.rs:26-53 | a read-modify-write of HFPERCLKEN0 changes only the one gate bit |
| CmuRegisters.Cmu.WriteHfrcoCtrl | src/cmu/hfrco.rs:26-31 | one full write of HFRCOCTRL sets band and tuning together |
| CmuRegisters.Cmu.WriteAuxHfrcoCtrl | src/cmu/hfrco.rs:71-76 | one full write of AUXHFRCOCTRL sets band and tuning together |
| CmuRegisters.Cmu.WriteUsHfrcoConf | src/cmu/ushfrco.rs:36 | a full write of USHFRCOCONF sets the band and resets the DIV2DIS bit to 0 |
| CmuRegisters.Cmu.ModifyUsHfrcoDiv2Dis | src/cmu/ushfrco.rs:71-88 | a read-modify-write of USHFRCOCONF changes only the DIV2DIS bit |
| CmuRegisters.Cmu.WriteUsHfrcoCtrl | src/cmu/ushfrco.rs:37 | a write of USHFRCOCTRL sets the coarse tuning |
| CmuRegisters.Cmu.WriteUsHfrcoTune | src/cmu/ushfrco.rs:38 | a write of USHFRCOTUNE sets the fine tuning |
| CmuRegisters.Cmu.ModifyHfClkDiv | src/cmu/hfclk.rs:17 | a read-modify-write of CTRL changes only the HFCLKDIV field |
| CmuRegisters.Cmu.ModifyHfCoreClkLeDiv | src/cmu/hfcoreclkle.rs:29-47 | a read-modify-write of HFCORECLKDIV changes only the LE divider bit |
| CmuRegisters.Cmu.WriteHfPerClkDiv | src/cmu/hfperclk.rs:19-71 | a full write of HFPERCLKDIV sets both the enable bit and the divider code |
| CmuRegisters.Cmu.ModifyLfa | src/cmu/lfa.rs:42-77 | a read-modify-write of LFCLKSEL changes only the LFA field and the LFAE bit |
| CmuRegisters.Cmu.ModifyLfb | src/cmu/lfb.rs:40-81 | a read-modify-write of LFCLKSEL changes only the LFB field and the LFBE bit |
| CmuRegisters.Cmu.ModifyLfc | src/cmu/lfc.rs:28-41 | a read-modify-write of LFCLKSEL changes only the LFC field |
| CmuRegisters.Cmu.WriteLfaPresc0 | src/cmu/lfa.rs:99 | a write of LFAPRESC0 sets the RTC prescaler and raises its SYNCBUSY bit |
| CmuRegisters.Cmu.WriteLfaClkEn0 | src/cmu/lfa.rs:101-134 | a write of LFACLKEN0 sets the RTC enable bit and raises its SYNCBUSY bit |
| CmuRegisters.Cmu.WriteLfbPresc0 | src/cmu/lfb.rs:103 | a write of LFBPRESC0 sets the LEUART0 prescaler and raises its SYNCBUSY bit |
| CmuRegisters.Cmu.WriteLfbClkEn0 | src/cmu/lfb.rs:105-122 | a write of LFBCLKEN0 sets the LEUART0 enable bit and raises its SYNCBUSY bit |
| CmuRegisters.Cmu.WriteLfcClkEn0 | src/cmu/lfc.rs:69-77 | a write of LFCCLKEN0 sets the USBLE enable bit and raises its SYNCBUSY bit |
| CmuHfClk.Div | src/cmu/hfclk.rs:11-50 | `divN` keeps HFCLK's source, records division N, writes code N-1 into CTRL.HFCLKDIV and divides the frequency by N |
| CmuHfClk.SelectSource | src/cmu/hfclk.rs:23-55 | switching HFCLK borrows the new source, keeps the division, issues one CMD.HFCLKSEL write and runs at source/division |
| CmuHfCoreClk.Div | src/cmu/hfcoreclk.rs:35-64 | `divN` borrows HFCLK, writes code log2(N), resets the LE divider and runs at HFCLK/N |
| CmuHfCoreClk.DropHfCoreClk | src/cmu/hfcoreclk.rs:66-67 | dropping HFCORECLK touches no register |
| CmuHfCoreClk.EnableSubclock | src/cmu/hfcoreclk.rs:70-106 | enabling a core subclock sets only its HFCORECLKEN0 bit and runs at HFCORECLK's frequency |
| CmuHfCoreClk.DropSubclock | src/cmu/hfcoreclk.rs:88-92 | dropping a core subclock clears only its gate bit |
| CmuHfCoreClk.DisableSubclock | src/cmu/hfcoreclk.rs:94-99 | `disable` clears the gate bit and returns an `Off` token that is no clock |
| CmuHfCoreClkLe.EnableLeDiv | src/cmu/hfcoreclkle.rs:17-50 | `enable_div2`/`enable_div4` set HFCORECLKDIV.HFCORECLKLEDIV exactly when dividing by 4, turn on the LE gate and run at HFCORECLK/N |
| CmuHfCoreClkLe.DropLeDiv | src/cmu/hfcoreclkle.rs:52-56 | dropping the LE divider clears only the LE gate bit |
| CmuHfCoreClkLe.DisableLeDiv | src/cmu/hfcoreclkle.rs:58-63 | `disable` clears the LE gate and returns an `Off`/`Off` token |
| CmuHfCoreClkUsbC.EnableUsbC | src/cmu/hfcoreclkusbc.rs:14-39 | selecting a USBC source leaves exactly that source's selected flag set (given the CMD reaction assumed under Left out), turns on the USBC gate and runs at the source's frequency |
| CmuHfCoreClkUsbC.DropUsbC | src/cmu/hfcoreclkusbc.rs:41-45 | dropping HFCORECLK_USBC clears only its gate bit |
| CmuHfCoreClkUsbC.DisableUsbC | src/cmu/hfcoreclkusbc.rs:47-52 | `disable` clears the gate bit and returns an `Off` token |
| CmuHfPerClk.EnableDiv | src/cmu/hfperclk.rs:5-65 | `divN` enables HFPERCLK with code log2(N) and runs at HFCLK/N |
| CmuHfPerClk.Disable | src/cmu/hfperclk.rs:67-73 | `disable` writes HFPERCLKDIV with the enable bit and the divider code both 0 and returns an `Off` token |
| CmuHfPerClk.EnableGate | src/cmu/hfperclk.rs:26-157 | enabling a peripheral clock sets only its HFPERCLKEN0 bit and runs at HFPERCLK's frequency |
| CmuHfPerClk.DisableGate | src/cmu/hfperclk.rs:44-50 | `disable` clears only that gate bit and returns an `Off` token |
| CmuHfrco.BandMegahertz | src/cmu/hfrco.rs:41-45 | the HFRCO bands are named after 1, 7, 11, 14 and 21 MHz |
| CmuHfrco.BandFrequency | src/cmu/hfrco.rs:41-45 | each HFRCO band runs at its nominal 1, 7, 11, 14 or 21 MHz |
| CmuHfrco.EnableHfRco | src/cmu/hfrco.rs:16-45 | `enable_Nmhz` writes the band and the ROM calibration byte into HFRCOCTRL, enables HFRCO, waits for HFRCORDY and yields an N MHz source |
| CmuHfrco.DropHfRco | src/cmu/hfrco.rs:47-51 | dropping HFRCO issues one OSCENCMD disable and clears its ready flag |
| CmuHfrco.DisableHfRco | src/cmu/hfrco.rs:53-58 | `disable` does the same and returns an `Off` token |
| CmuHfrco.EnableAuxHfRco | src/cmu/hfrco.rs:61-90 | the AUXHFRCO enable writes band and calibration into AUXHFRCOCTRL, waits for AUXHFRCORDY and yields an N MHz source |
| CmuHfrco.DropAuxHfRco | src/cmu/hfrco.rs:92-96 | dropping AUXHFRCO disables it and clears its ready flag |
| CmuHfrco.DisableAuxHfRco | src/cmu/hfrco.rs:98-103 | `disable` does the same and returns an `Off` token |
| CmuLfa.SelectSource | src/cmu/lfa.rs:17-77 | selecting an LFA source writes its LFCLKSEL value, including the extended bit, and runs at the source's frequency |
| CmuLfa.Disable | src/cmu/lfa.rs:37-45 | `disable` writes the disabled selection and returns an `Off` token |
| CmuLfa.EnableRtc | src/cmu/lfa.rs:80-123 | the RTC divider waits on SYNCBUSY before each of LFAPRESC0 (code log2(N)) and LFACLKEN0, and runs at LFACLK/N |
| CmuLfa.DisableRtc | src/cmu/lfa.rs:125-137 | `disable` waits on SYNCBUSY and then clears the RTC gate |
| CmuLfa.WritePrescalerSynced | src/cmu/lfa.rs:98-99 | the prescaler write is preceded by its SYNCBUSY wait |
| CmuLfa.WriteGateSynced | src/cmu/lfa.rs:100-101 | the gate write is preceded by its SYNCBUSY wait |
| CmuLfb.SelectSource | src/cmu/lfb.rs:16-81 | selecting an LFB source writes its LFCLKSEL value and runs at the source's frequency |
| CmuLfb.DropLfb | src/cmu/lfb.rs:37-42 | dropping LFBCLK writes the disabled selection |
| CmuLfb.Disable | src/cmu/lfb.rs:44-49 | `disable` does the same and returns an `Off` token |
| CmuLfb.EnableLeuart0 | src/cmu/lfb.rs:84-115 | the LEUART0 divider waits on SYNCBUSY before each of LFBPRESC0 (code log2(N)) and LFBCLKEN0, and runs at LFBCLK/N |
| CmuLfb.DropLeuart0 | src/cmu/lfb.rs:117-123 | dropping LEUART0's clock waits on SYNCBUSY and then clears its gate |
| CmuLfb.DisableLeuart0 | src/cmu/lfb.rs:125-133 | `disable` does the same and returns an `Off`/`Off` token |
| CmuLfb.WritePrescalerSynced | src/cmu/lfb.rs:102-103 | the prescaler write is preceded by its SYNCBUSY wait |
| CmuLfb.WriteGateSynced | src/cmu/lfb.rs:104-105 | the gate write is preceded by its SYNCBUSY wait |
| CmuLfc.SelectSource | src/cmu/lfc.rs:15-36 | selecting an LFC source writes a non-disabled LFC selection and runs at the source's frequency |
| CmuLfc.DropLfc | src/cmu/lfc.rs:38-42 | dropping LFCCLK writes the disabled selection |
| CmuLfc.Disable | src/cmu/lfc.rs:44-49 | `disable` does the same and returns an `Off` token |
| CmuLfc.EnableUsbLe | src/cmu/lfc.rs:53-71 | enabling USBLE waits on SYNCBUSY, sets LFCCLKEN0.USBLE and runs at LFCCLK's frequency |
| CmuLfc.DropUsbLe | src/cmu/lfc.rs:73-78 | dropping USBLE waits on SYNCBUSY and then clears the gate |
| CmuLfc.DisableUsbLe | src/cmu/lfc.rs:80-88 | `disable` does the same and returns an `Off` token |
| CmuLfrco.EnableLfRco | src/cmu/lfrco.rs:16-29 | enabling LFRCO writes OSCENCMD, waits for LFRCORDY and yields a 32768 Hz source |
| CmuLfrco.DisableLfRco | src/cmu/lfrco.rs:31-37 | `disable` writes the OSCENCMD disable bit and returns an `Off` token |
| CmuUsHfrco.UsBandFrequency | src/cmu/ushfrco.rs:49-50 | the USHFRCO bands are 24 MHz and 48 MHz |
| CmuUsHfrco.EnableUsHfRco | src/cmu/ushfrco.rs:22-50 | enabling USHFRCO sets the band with the divide-by-2 on, loads both calibration fields from ROM, waits for USHFRCORDY and yields a 24 or 48 MHz source |
| CmuUsHfrco.DisableUsHfRco | src/cmu/ushfrco.rs:52-58 | `disable` issues the OSCENCMD disable and returns an `Off` token |
| CmuUsHfrco.EnableDiv1 | src/cmu/ushfrco.rs:62-73 | `enable_div1` accepts only the 24 MHz USHFRCO, sets USHFRCOCONF.USHFRCODIV2DIS and yields 24 MHz |
| CmuUsHfrco.EnableDiv2 | src/cmu/ushfrco.rs:75-90 | `enable_div2` clears USHFRCODIV2DIS and yields half the USHFRCO frequency |
| CmuUsHfrco.DisableUsHfRcoDiv | src/cmu/ushfrco.rs:92-98 | `disable` touches no register and returns an `Off`/`Off` token |
| CmuXo.DropHfXo | src/cmu/xo.rs:19-23 | dropping HFXO issues its OSCENCMD disable and clears HFXORDY |
| CmuXo.DisableHfXo | src/cmu/xo.rs:25-30 | `disable` does the same and returns an `Off` token |
| CmuXo.DropLfXo | src/cmu/xo.rs:34-38 | dropping LFXO issues its OSCENCMD disable and clears LFXORDY |
| CmuXo.DisableLfXo | src/cmu/xo.rs:40-45 | `disable` does the same and returns an `Off` token |
| CmuLifecycle.Finalize | src/cmu/macros.rs:15-117 | `finalize` locks the token in a `Finalized` wrapper from which the same token can be read back |
| CmuLifecycle.Drop | src/cmu/macros.rs:35-138 | dropping a token runs exactly its clock's `_disable` register sequence and turns off exactly that clock: an oscillator's ready flag (see Cmu.WriteOscEnCmd under Left out), a core gate's enable bit, an LF branch's selection, or an LF peripheral's enable bit with its SYNCBUSY bit raised; every other field keeps its value |
| CmuLifecycle.DropOscillator | src/cmu/xo.rs:18-43 | dropping HFRCO, AUXHFRCO, HFXO or LFXO sends its OSCENCMD disable and clears only its ready flag |
| CmuLifecycle.DropCore | src/cmu/hfcoreclk.rs:70-102 | dropping HFCORECLK writes nothing, and dropping a core subclock clears only its own HFCORECLKEN0 bit |
| CmuLifecycle.DropLf | src/cmu/lfb.rs:36-134 | dropping LFBCLK or LFCCLK disables only its LFCLKSEL field, and dropping LEUART0 or USBLE clears only its enable bit and raises only its SYNCBUSY bit |
| CmuLifecycle.EndOfScope | src/cmu/macros.rs:35-40 | at end of scope an owned token is disabled, with the same register effect as `Drop`, and a finalized one leaves the CMU untouched |
| CmuScenario.HfClkChainWired | src/panic.rs:15-17 | HFCLK switched to a running HFRCO is well wired and rooted at that HFRCO |
| CmuScenario.LeDivChainWired | src/panic.rs:18-22 | HFCORECLK div1 and the LE divide-by-4 keep the chain well wired with the same root |
| CmuScenario.LeuartChainWired | src/panic.rs:23-26 | LFBCLK from the LE divider and LEUART0 divide-by-8 keep the chain well wired with the same root |
| CmuScenario.PanicChainWiring | src/panic.rs:14-26 | the panic handler's LEUART0 clock is well wired and rooted at the 21 MHz HFRCO |
| CmuScenario.PanicChainFrequency | src/panic.rs:14-26 | the chain divides by 32 in total, so LEUART0 runs at 656250 Hz |
| CmuScenario.PanicHfClk | src/panic.rs:14-17 | enabling HFRCO at 21 MHz and switching HFCLK to it with div1 leaves HFCLKDIV code 0 |
| CmuScenario.PanicLeDiv | src/panic.rs:18-22 | HFCORECLK div1 and `enable_div4` leave divider code 0, the LE divide-by-4 bit set and the LE gate on |
| CmuScenario.UndividedCode | src/cmu/hfcoreclk.rs:55-64 | divider 1 has code 0 |
| CmuScenario.DivideByEightCode | src/cmu/lfb.rs:112-115 | divider 8 has code 3 |
| CmuScenario.PanicLfClocks | src/panic.rs:23-26 | LFBCLK selects the LE divider, and LEUART0 gets prescaler code 3 with its gate on |
| CmuScenario.PanicClocks | src/panic.rs:14-26 | the whole sequence yields the panic chain's LEUART0 token at 656250 Hz, with a 13-event register trace |
| Consts.Binary | src/consts.rs:1-14 | every natural number has a canonical `typenum` spelling |
| Consts.ValueOfBinary | src/consts.rs:1-14 | reading the canonical spelling of n gives back n |
| Consts.BinaryOfValue | src/consts.rs:1-14 | a canonical spelling is the spelling of its own value, so spellings and values are in one-to-one correspondence |
| Consts.CanonicalIsPositive | src/consts.rs:1-14 | a canonical spelling other than `UTerm` has a positive value |
| Consts.ValueU7000000 | src/consts.rs:4 | `U7000000` spells 7000000 |
| Consts.ValueU11000000 | src/consts.rs:6 | `U11000000` spells 11000000 |
| Consts.ValueU14000000 | src/consts.rs:8 | `U14000000` spells 14000000 |
| Consts.ValueU21000000 | src/consts.rs:10 | `U21000000` spells 21000000 |
| Consts.ValueU24000000 | src/consts.rs:12 | `U24000000` spells 24000000 |
| Consts.ValueU48000000 | src/consts.rs:14 | `U48000000` spells 48000000 |
| Consts.MarkerValues | src/consts.rs:16-24 | the `MhzN` aliases the clock tokens use have the values their names promise |
| Consts.DoubledBand | src/consts.rs:12-14 | the 48 MHz spelling is the 24 MHz spelling with one more `B0`, that is twice its value |
| DeviceInformation.HfrcoCalibAddress | src/device_information.rs:1-16 | the HFRCO calibration bytes lie in 0x0fe081dc..0x0fe081e0 |
| DeviceInformation.AuxHfrcoCalibAddress | src/device_information.rs:1-16 | the AUXHFRCO calibration bytes lie in 0x0fe081d4..0x0fe081d8 |
| DeviceInformation.UsHfrcoCoarseAddress | src/device_information.rs:1-16 | the USHFRCO coarse calibration bytes are at 0x0fe081cc (24 MHz) and 0x0fe081ce (48 MHz) |
| DeviceInformation.UsHfrcoFineAddress | src/device_information.rs:1-16 | each USHFRCO fine calibration byte sits right after its band's coarse one |
| DeviceInformation.AddressesDistinct | src/device_information.rs:1-16 | the calibration addresses of different bands are different, the three tables do not overlap, and they all lie in 0x0fe081cc..0x0fe081e0 |
| DeviceInformation.HfrcoCalib | src/device_information.rs:18-41 | the HFRCO calibration getter reads the ROM byte at its band's address |
| DeviceInformation.AuxHfrcoCalib | src/device_information.rs:43-66 | the AUXHFRCO calibration getter reads the ROM byte at its band's address |
| DeviceInformation.UsHfrcoCalib | src/device_information.rs:68-86 | the USHFRCO getter returns the coarse byte's low 7 bits and the fine byte's low 6 bits, and the bits it drops are exactly the high ones |
| Devices.New | src/devices.rs:14-18 | wrapping a value in `Finalized` keeps it readable through `get_ref` |
| Devices.GetRef | src/devices.rs:20-24 | `get_ref` returns the device the wrapper was finalized from |
| Devices.Deref | src/devices.rs:27-33 | dereferencing a `Finalized` returns the device it was finalized from, so `Deref` undoes `new` |
| Devices.FinalizeInjective | src/devices.rs:11-33 | distinct values give distinct `Finalized` wrappers, and `Deref` after `new` returns the wrapped value |
| GpioBits.ReplaceNibble | src/gpio.rs:175-181 | clearing a 4-bit field with the mask and OR-ing in the mode sets that field and keeps the other seven |
| GpioBits.NibbleWritten | src/gpio.rs:176-180 | the masked write leaves the new mode in the pin's field |
| GpioBits.NibblesKept | src/gpio.rs:176-180 | the masked write leaves every other field unchanged |
| GpioBits.NibbleKept | src/gpio.rs:199-204 | one other field at a time is unchanged |
| GpioBits.BitTestIsShiftedLowBit | src/gpio/mod.rs:78-81 | testing `din & (1 << bit)` is the same as testing the low bit of `din >> bit` |
| GpioBits.OnlyOwnBit | src/gpio/mod.rs:108-119 | the mask `1 << bit` selects that pin and no other |
| GpioBits.TglOwnBit | src/gpio/mod.rs:125-130 | XOR with the pin's mask flips that pin |
| GpioBits.TglOtherBit | src/gpio/mod.rs:125-130 | XOR with the pin's mask leaves every other pin as it was |
| GpioBits.PinsOfBit | src/gpio.rs:225-237 | the mask `1 << pin` decodes to the one-pin set {pin} |
| GpioRegisters.Toggle | src/gpio.rs:252-264 | a DOUTTGL write flips exactly the pins in its mask |
| GpioRegisters.ToggleInvolutive | src/gpio/mod.rs:125-130 | toggling the same pins twice restores DOUT |
| GpioRegisters.GpioBlock.ModeOf | src/gpio.rs:175-201 | a pin's mode is a 4-bit value read from MODEL for pins 0-7 and from MODEH for pins 8-15 |
| GpioRegisters.GpioBlock.constructor | src/gpio.rs:149-152 | the register block starts from the given MODEL, MODEH, DOUT and DIN contents with an empty trace |
| GpioRegisters.GpioBlock.ModifyModeField | src/gpio.rs:172-223 | a read-modify-write of MODEL/MODEH sets the pin's mode and leaves every other pin's mode unchanged |
| GpioRegisters.GpioBlock.WriteModeL | src/gpio.rs:179-196 | a MODEL write replaces only that port's low mode word |
| GpioRegisters.GpioBlock.WriteModeH | src/gpio.rs:203-220 | a MODEH write replaces only that port's high mode word |
| GpioRegisters.GpioBlock.WriteDoutSet | src/gpio.rs:225-237 | a DOUTSET write drives the pins in the mask high and keeps the others |
| GpioRegisters.GpioBlock.WriteDoutClr | src/gpio.rs:239-251 | a DOUTCLR write drives the pins in the mask low and keeps the others |
| GpioRegisters.GpioBlock.WriteDoutTgl | src/gpio.rs:252-264 | a DOUTTGL write flips the pins in the mask and keeps the others |
| GpioDriver.Discriminant | src/gpio.rs:7-24 | every `PinMode` discriminant fits the 4-bit mode field |
| GpioDriver.DiscriminantBijective | src/gpio.rs:7-24 | the sixteen modes and the sixteen 4-bit values are in one-to-one correspondence |
| GpioDriver.PinMode | src/gpio.rs:172-223 | `pin_mode` sets exactly that pin's mode field to the mode's discriminant, in MODEL or MODEH |
| GpioDriver.PinSet | src/gpio.rs:225-237 | `pin_set` drives that pin high and leaves every other pin |
| GpioDriver.PinClr | src/gpio.rs:239-251 | `pin_clr` drives that pin low and leaves every other pin |
| GpioDriver.PinTgl | src/gpio.rs:252-264 | `pin_tgl` inverts that pin and leaves every other pin |
| GpioDriver.PinDin | src/gpio.rs:265-276 | `pin_din` as written: true exactly when DIN shifted right by the pin equals 1 |
| GpioDriver.ShiftTestSound | src/gpio.rs:265-276 | when `pin_din` reports high, the pin is high |
| GpioDriver.ShiftTestMisreadsUnderHigherPin | src/gpio.rs:265-276 | when any higher pin of the port is high, `pin_din` reports the pin low whatever its level |
| GpioDriver.ShiftedOutBitMisread | src/gpio.rs:265-276 | a set bit above the pin survives the shift, so the shifted word cannot be 1 |
| GpioDriver.ShiftTestCounterexample | src/gpio.rs:265-276 | with DIN = 0x3, pin 0 is high but `pin_din` reports it low |
| GpioDriver.PinDinCorrected | src/gpio/mod.rs:76-88 | the corrected read returns exactly the pin's own DIN bit |
| GpioDriver.BitTestReadsOwnBitOnly | src/gpio/mod.rs:76-88 | the corrected read of a pin is unaffected by a change to any other pin and follows a change to its own |
| GpioDriver.Location | src/gpio.rs:56-131 | every board pin lies on a port at a pin number below 16 |
| GpioDriver.LocationInjective | src/gpio.rs:56-131 | no two board pins share a port and pin number |
| GpioDriver.Pins | src/gpio.rs:133-170 | `pins()` hands out thirteen pins, none twice |
| GpioDriver.PinsComplete | src/gpio.rs:154-170 | every board pin is among those `pins()` hands out |
| GpioDriver.Dout | src/gpio.rs:50-52 | `dout(set)` leaves the pin's output equal to `set` and leaves every other pin |
| GpioPinModes.New | src/gpio/pin_modes.rs:66-75 | a new `PinMode` has input and output disabled, maps to mode 0 with DOUT 0, and that line means disabled and floating |
| GpioPinModes.WithInput | src/gpio/pin_modes.rs:87-100 | the input builders change only the input half |
| GpioPinModes.WithOutput | src/gpio/pin_modes.rs:102-200 | the output builders change only the output half |
| GpioPinModes.Lookup | src/gpio/pin_modes.rs:282-349 | every accepted `PinMode` has a 4-bit MODE, and its DOUT is left free exactly when its output has two states |
| GpioPinModes.TableSound | src/gpio/pin_modes.rs:268-349 | every accepted `PinMode` maps to a mode/DOUT pair whose hardware behaviour is the requested input mode and output states |
| GpioPinModes.SingleStateLinesSound | src/gpio/pin_modes.rs:282-349 | each accepted single-state mode fixes DOUT to the value that gives the requested state |
| GpioPinModes.MultiStateLinesSound | src/gpio/pin_modes.rs:290-319 | each accepted multi-state mode gives its high state with DOUT 1 and its low state with DOUT 0 |
| GpioPinModes.DoutFreeIffMultiState | src/gpio/pin_modes.rs:256-301 | a mode leaves DOUT free exactly when its output can take two states, and every MODE fits 4 bits |
| GpioPinModes.EveryBehaviourReachable | src/gpio/pin_modes.rs:282-301 | every hardware mode/DOUT pair is reachable from some accepted `PinMode` |
| GpioPinModes.EveryModeUsed | src/gpio/pin_modes.rs:282-301 | each of the sixteen MODE values is used by some accepted `PinMode` |
| GpioPinModes.ExtrasReuseTableLines | src/gpio/pin_modes.rs:303-349 | the nine extra impls reuse MODE values of the table and agree with its lines |
| GpioPinModes.PushPullModes | src/gpio/pin_modes.rs:290-291 | push-pull is mode 4 and push-pull with alternate drive is mode 5, both leaving DOUT free |
| GpioPinModes.ModeZeroShared | src/gpio/pin_modes.rs:282-309 | floating, pull-up and pull-up-or-floating with input disabled all use mode 0 |
| GpioPins.Latched | src/gpio/mod.rs:46-54 | the DOUT a mode asks for is written to the pin alone, and with no DOUT nothing changes |
| GpioPins.Mode | src/gpio/mod.rs:42-56 | `mode` writes the table's MODE into the pin's field, writes the table's DOUT if it has one, and leaves the pin configured as asked |
| GpioPins.StoreDout | src/gpio/mod.rs:46-54 | `Some(true)` goes through DOUTSET, `Some(false)` through DOUTCLR, and `None` writes nothing |
| GpioPins.EntryConfigures | src/gpio/pin_modes.rs:268-301 | a pin whose MODE field and DOUT bit match the table entry behaves as the requested mode |
| GpioPins.IsHigh | src/gpio/mod.rs:76-101 | `is_high` is the pin's own DIN bit: true exactly when the pin is among the high pins of its port |
| GpioPins.IsLow | src/gpio/mod.rs:76-101 | `is_low` is true exactly when the pin's own DIN bit is 0 |
| GpioPins.InputLevel | src/gpio/mod.rs:76-101 | `is_low` is the negation of `is_high`, and `is_high` reads the pin's own DIN bit |
| GpioPins.SetHigh | src/gpio/mod.rs:114-119 | `set_high` drives the pin high, and a configured pin then shows its mode's high state |
| GpioPins.SetLow | src/gpio/mod.rs:107-112 | `set_low` drives the pin low, and a configured pin then shows its mode's low state |
| GpioPins.Toggle | src/gpio/mod.rs:122-131 | `toggle` inverts the pin's output and keeps it configured |
| GpioPins.IsSetHigh | src/gpio/mod.rs:133-147 | `is_set_high` is the pin's own DOUT latch |
| GpioPins.IsSetLow | src/gpio/mod.rs:133-147 | `is_set_low` is true exactly when the pin's own DOUT latch is 0 |
| GpioPins.InitialGpioState | src/gpio/mod.rs:259-299 | the initial state hands out one token per board pin in unknown mode, each at its own location |

## Left out

- `claim_ownership` and the `unsafe` `get_initial_state`: the model starts from given tokens and has no ownership accounting.
- Lifetimes, borrow checking, `Send`/`Sync`, and the `'static` bound on `finalize`: these are Rust type-system guarantees. The model passes upstream tokens by value.
- The `transmute` tricks in `devices.rs` and `get_initial_state`: `Finalized` is modelled as holding the value, which is what `get_ref`/`Deref` pretend.
- `Drop` for tokens whose type has no `_disable` (for example `LfRco`, `UsHfRco`, `HfPerClk` and its gates): the model's `Drop` only accepts clocks with a destructor.
- Cmu.WaitSet: the busy-wait loops `while … {}` are one recorded poll each. Termination depends on the hardware and is not modelled.
- Cmu.WaitClear: the same applies to SYNCBUSY waits.
- Cmu.WriteOscEnCmd: the STATUS effect of a disable command, the oscillator's ready flag going clear, is an assumed hardware reaction. The driver never reads it back after a disable. `CmuLifecycle.Drop` and the `Drop`/`disable` methods of HFRCO, AUXHFRCO, USHFRCO, LFRCO, HFXO and LFXO promise "ready flag cleared" only on this assumption.
- Cmu.WriteCmd: the STATUS effect of a USBCCLKSEL command, the other USBC*SEL flags going clear, is an assumed hardware reaction. The driver only polls for the new flag. The "exactly the selected flag" clause of `CmuHfCoreClkUsbC.EnableUsbC` rests on this assumption.
- `FREQUENCY` is an `f64` in the source and an exact `real` here. Rounding is not modelled.
- The `typenum` frequency types are plain numbers in tokens. `Consts.MarkerValues` ties them to their binary spellings.
- The calibration ROM is a function parameter `Rom`: reads from raw addresses cannot be modelled.
- CMU register fields that the driver never reads are not modelled. Only the reset values that the driver's full `write`s restore are modelled.
- DOUT is a set of high pins, not a 16-bit word.
- GPIO mode values are `bv32` 4-bit fields.
- The compile-time rejection of pin modes without a `ValidPinMode` impl is `Lookup` returning `None`. `Valid` excludes those modes.
- GpioDriver.PinMode: requires pin < 16. For a pin in 16..255 the source's shift `(pin - 8) * 4` overflows, and that case is not modelled.
- GpioDriver.PinSet, GpioDriver.PinClr, GpioDriver.PinTgl: require pin < 16, the width of the DOUTSET/DOUTCLR/DOUTTGL field.
- GpioDriver.PinDin: requires pin < 32. A shift by 32 or more overflows in the source.
- `leuart.rs`, `nvic.rs`, `usb.rs` and `main.rs` are not part of this model.
- The GPIO and LEUART parts of `panic.rs` (lines 28 onward) are not part of this model. Only its clock chain is modelled.
- `Gpio::init_gpio` builds a handle that holds no data; `GpioBlock.constructor` stands for it and takes the register contents at that moment as given.

## Findings

| source | as written | input that shows it | evidently intended | confidence | as-written member | corrected member |
|---|---|---|---|---|---|---|
| src/gpio.rs:265-276 | `pin_din` returns `(din >> pin) == 1`, which is false whenever any higher pin of the port is high | DIN = 0x3, pin 0: pin 0 is high, but `0x3 >> 0 == 3`, so it reads low | test the pin's own bit, `din & (1 << pin) != 0`, as `is_high` in `src/gpio/mod.rs:76-88` does | not executed | GpioDriver.ShiftTestCounterexample | GpioDriver.PinDinCorrected |

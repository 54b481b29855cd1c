/** The pin configurations of the GPIO (src/gpio/pin_modes.rs): an input mode
  * and an output mode, and the table that maps each valid combination to the
  * 4-bit MODE field and the DOUT value that select it (table 26.1 of the
  * EFM32HG reference manual).
  *
  * In the source the configurations are types, and the table is a set of
  * `ValidPinMode` impls; here they are values and `Lookup` returns `None`
  * for a combination without an impl (which the source rejects at compile
  * time). */
module GpioPinModes {
  import opened Wrappers

  /** `input_modes`: the input path is off, on, or on behind a glitch filter. */
  datatype InputMode = InputDisabled | InputEnabled | InputFiltered

  /** `output_states`: what the pin driver does for one value of DOUT. */
  datatype OutputState = LowAlternateDrive | Low | PullDown | Floating | PullUp | High | HighAlternateDrive

  /** `output_modes`: a fixed state, or a state for DOUT = 1 and one for DOUT = 0
    * (the pin can then be driven by writing DOUT). */
  datatype OutputMode = SingleState(state: OutputState) | MultiState(high: OutputState, low: OutputState)

  const FixedLowAlternateDrive := SingleState(LowAlternateDrive)
  const FixedLow := SingleState(Low)
  const FixedPullDown := SingleState(PullDown)
  const OutputDisabled := SingleState(Floating)
  const FixedFloating := SingleState(Floating)
  const FixedPullUp := SingleState(PullUp)
  const FixedHigh := SingleState(High)
  const FixedHighAlternateDrive := SingleState(HighAlternateDrive)
  const PushPull := MultiState(High, Low)
  const PushPullAlternateDrive := MultiState(HighAlternateDrive, LowAlternateDrive)
  const WiredOr := MultiState(High, Floating)
  const WiredOrPullDown := MultiState(High, PullDown)
  const WiredAnd := MultiState(Floating, Low)
  const WiredAndPullUp := MultiState(PullUp, Low)
  const WiredAndAlternateDrive := MultiState(Floating, LowAlternateDrive)
  const WiredAndAlternateDrivePullUp := MultiState(PullUp, LowAlternateDrive)
  const PullUpOrDown := MultiState(PullUp, PullDown)
  const PullUpOrFloating := MultiState(PullUp, Floating)

  datatype PinMode = PinMode(input: InputMode, output: OutputMode)

  /** PinMode::new: everything off. */
  function New(): (p: PinMode)
    ensures p.input == InputDisabled && p.output == OutputDisabled
    ensures Lookup(p) == Some(ModeEntry(0, Some(false)))
    ensures Hardware(0, false) == (InputDisabled, Floating)
  {
    PinMode(InputDisabled, OutputDisabled)
  }

  /** input_enable, input_filter, input_disable: replace the input mode and
    * keep the output mode. */
  function WithInput(p: PinMode, input: InputMode): (r: PinMode)
    ensures r.input == input && r.output == p.output
  {
    PinMode(input, p.output)
  }

  /** output_disable, set_low, …, pull_up_or_floating: replace the output mode
    * and keep the input mode. */
  function WithOutput(p: PinMode, output: OutputMode): (r: PinMode)
    ensures r.output == output && r.input == p.input
  {
    PinMode(p.input, output)
  }

  /** `ValidPinMode::MODE` and `ValidPinMode::DOUT`. */
  datatype ModeEntry = ModeEntry(mode: bv32, dout: Option<bool>)

  /** The `ValidPinMode` impls: twenty lines of table 26.1, then three pairs of
    * lines merged into one line with a free DOUT, then six lines with a free
    * DOUT fixed to one value. */
  function Lookup(p: PinMode): (e: Option<ModeEntry>)
    ensures e.Some? ==> e.value.mode < 16
    ensures e.Some? ==> (e.value.dout.None? <==> p.output.MultiState?)
  {
    match (p.input, p.output)
    case (InputDisabled, SingleState(Floating)) => Some(ModeEntry(0, Some(false)))
    case (InputDisabled, SingleState(PullUp)) => Some(ModeEntry(0, Some(true)))
    case (InputEnabled, SingleState(Floating)) => Some(ModeEntry(1, Some(false)))
    case (InputFiltered, SingleState(Floating)) => Some(ModeEntry(1, Some(true)))
    case (InputEnabled, SingleState(PullDown)) => Some(ModeEntry(2, Some(false)))
    case (InputEnabled, SingleState(PullUp)) => Some(ModeEntry(2, Some(true)))
    case (InputFiltered, SingleState(PullDown)) => Some(ModeEntry(3, Some(false)))
    case (InputFiltered, SingleState(PullUp)) => Some(ModeEntry(3, Some(true)))
    case (InputEnabled, MultiState(High, Low)) => Some(ModeEntry(4, None))
    case (InputEnabled, MultiState(HighAlternateDrive, LowAlternateDrive)) => Some(ModeEntry(5, None))
    case (InputEnabled, MultiState(High, Floating)) => Some(ModeEntry(6, None))
    case (InputEnabled, MultiState(High, PullDown)) => Some(ModeEntry(7, None))
    case (InputEnabled, MultiState(Floating, Low)) => Some(ModeEntry(8, None))
    case (InputFiltered, MultiState(Floating, Low)) => Some(ModeEntry(9, None))
    case (InputEnabled, MultiState(PullUp, Low)) => Some(ModeEntry(10, None))
    case (InputFiltered, MultiState(PullUp, Low)) => Some(ModeEntry(11, None))
    case (InputEnabled, MultiState(Floating, LowAlternateDrive)) => Some(ModeEntry(12, None))
    case (InputFiltered, MultiState(Floating, LowAlternateDrive)) => Some(ModeEntry(13, None))
    case (InputEnabled, MultiState(PullUp, LowAlternateDrive)) => Some(ModeEntry(14, None))
    case (InputFiltered, MultiState(PullUp, LowAlternateDrive)) => Some(ModeEntry(15, None))
    case (InputDisabled, MultiState(PullUp, Floating)) => Some(ModeEntry(0, None))
    case (InputEnabled, MultiState(PullUp, PullDown)) => Some(ModeEntry(2, None))
    case (InputFiltered, MultiState(PullUp, PullDown)) => Some(ModeEntry(3, None))
    case (InputEnabled, SingleState(LowAlternateDrive)) => Some(ModeEntry(12, Some(false)))
    case (InputFiltered, SingleState(LowAlternateDrive)) => Some(ModeEntry(13, Some(false)))
    case (InputEnabled, SingleState(Low)) => Some(ModeEntry(8, Some(false)))
    case (InputFiltered, SingleState(Low)) => Some(ModeEntry(9, Some(false)))
    case (InputEnabled, SingleState(High)) => Some(ModeEntry(6, Some(true)))
    case (InputEnabled, SingleState(HighAlternateDrive)) => Some(ModeEntry(5, Some(true)))
    case _ => None
  }

  /** A configuration the source accepts (has a `ValidPinMode` impl). */
  predicate Valid(p: PinMode)
  {
    Lookup(p).Some?
  }

  /** The hardware's reading of MODE and DOUT, written out independently of
    * `Lookup`: what the input path does and what the driver does. Modes 0–3
    * are the input modes (DOUT selects pull-up or filter), 4–7 the push-pull
    * and wired-or modes, 8–15 the wired-and modes (odd ones filtered, 10, 11,
    * 14, 15 with pull-up, 12–15 with alternate drive strength). */
  function Hardware(mode: bv32, dout: bool): (InputMode, OutputState)
    requires mode < 16
  {
    if mode == 0 then (InputDisabled, if dout then PullUp else Floating)
    else if mode == 1 then (if dout then InputFiltered else InputEnabled, Floating)
    else if mode == 2 || mode == 3 then
      (if mode == 2 then InputEnabled else InputFiltered, if dout then PullUp else PullDown)
    else if mode == 4 then (InputEnabled, if dout then High else Low)
    else if mode == 5 then (InputEnabled, if dout then HighAlternateDrive else LowAlternateDrive)
    else if mode == 6 then (InputEnabled, if dout then High else Floating)
    else if mode == 7 then (InputEnabled, if dout then High else PullDown)
    else
      var input := if mode % 2 == 0 then InputEnabled else InputFiltered;
      var released := if mode == 10 || mode == 11 || mode == 14 || mode == 15 then PullUp else Floating;
      var driven := if mode >= 12 then LowAlternateDrive else Low;
      (input, if dout then released else driven)
  }

  /** MODE and DOUT make the hardware behave as the configuration says: a
    * fixed state under the stored DOUT, or, with DOUT left free, the high
    * state under DOUT = 1 and the low state under DOUT = 0. */
  predicate Realizes(p: PinMode, e: ModeEntry)
  {
    e.mode < 16 &&
    match p.output
    case SingleState(s) =>
      e.dout.Some? && Hardware(e.mode, e.dout.value) == (p.input, s)
    case MultiState(h, l) =>
      e.dout.None? && Hardware(e.mode, true) == (p.input, h) && Hardware(e.mode, false) == (p.input, l)
  }

  /** Every line of the table is right: its MODE and DOUT produce the
    * configuration it is listed under. */
  lemma TableSound(p: PinMode)
    ensures Valid(p) ==> Realizes(p, Lookup(p).value)
  {
    match p.output
    case SingleState(_) => SingleStateLinesSound(p);
    case MultiState(_, _) => MultiStateLinesSound(p);
  }

  /** The lines with a fixed output state. */
  lemma SingleStateLinesSound(p: PinMode)
    requires p.output.SingleState?
    ensures Valid(p) ==> Realizes(p, Lookup(p).value)
  {
  }

  /** The lines whose output follows DOUT. */
  lemma MultiStateLinesSound(p: PinMode)
    requires p.output.MultiState?
    ensures Valid(p) ==> Realizes(p, Lookup(p).value)
  {
  }

  /** DOUT is left free exactly for the configurations whose output follows
    * DOUT, and the mode always fits the 4-bit field. */
  lemma {:induction false} DoutFreeIffMultiState(p: PinMode)
    requires Valid(p)
    ensures Lookup(p).value.dout.None? <==> p.output.MultiState?
    ensures Lookup(p).value.mode < 16
  {
    TableSound(p);
  }

  /** Every behaviour the hardware offers is reachable: for every MODE and DOUT
    * there is a valid fixed-state configuration with exactly that behaviour. */
  lemma {:induction false} EveryBehaviourReachable(mode: bv32, dout: bool)
    requires mode < 16
    ensures var (i, s) := Hardware(mode, dout);
      Valid(PinMode(i, SingleState(s))) && Realizes(PinMode(i, SingleState(s)), Lookup(PinMode(i, SingleState(s))).value)
  {
    var (i, s) := Hardware(mode, dout);
    TableSound(PinMode(i, SingleState(s)));
  }

  /** Every MODE value is used by some valid configuration. */
  lemma {:induction false} EveryModeUsed(mode: bv32)
    requires mode < 16
    ensures exists p :: Valid(p) && Lookup(p).value.mode == mode
  {
    var p := if mode < 4 then PinMode(Hardware(mode, false).0, SingleState(Hardware(mode, false).1))
      else if mode < 8 then PinMode(InputEnabled, MultiState(Hardware(mode, true).1, Hardware(mode, false).1))
      else PinMode(Hardware(mode, true).0, MultiState(Hardware(mode, true).1, Hardware(mode, false).1));
    assert Valid(p) && Lookup(p).value.mode == mode;
  }

  /** The merged lines (free DOUT, MODE below 4) join the two fixed lines of
    * that MODE; the fixed extras (MODE 4 and above) take the MODE of the
    * free-DOUT line that produces their state under the DOUT they store. */
  lemma {:induction false} ExtrasReuseTableLines(p: PinMode)
    requires Valid(p)
    ensures var e := Lookup(p).value;
      p.output.MultiState? && e.mode < 4 ==>
        Lookup(PinMode(p.input, SingleState(p.output.high))) == Some(ModeEntry(e.mode, Some(true))) &&
        Lookup(PinMode(p.input, SingleState(p.output.low))) == Some(ModeEntry(e.mode, Some(false)))
    ensures var e := Lookup(p).value;
      p.output.SingleState? && e.mode >= 4 ==>
        e.mode < 16 && e.dout.Some? &&
        Lookup(PinMode(p.input, MultiState(Hardware(e.mode, true).1, Hardware(e.mode, false).1))) == Some(ModeEntry(e.mode, None))
  {
    TableSound(p);
  }

  /** The two push-pull configurations take MODE 4 and 5. */
  lemma PushPullModes()
    ensures Lookup(PinMode(InputEnabled, PushPull)) == Some(ModeEntry(4, None))
    ensures Lookup(PinMode(InputEnabled, PushPullAlternateDrive)) == Some(ModeEntry(5, None))
  {
  }

  /** The table is not injective: three configurations share MODE 0. */
  lemma ModeZeroShared()
    ensures Lookup(PinMode(InputDisabled, FixedFloating)).value.mode == 0
    ensures Lookup(PinMode(InputDisabled, FixedPullUp)).value.mode == 0
    ensures Lookup(PinMode(InputDisabled, PullUpOrFloating)).value.mode == 0
  {
  }
}

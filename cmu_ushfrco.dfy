/** USHFRCO, the RC oscillator for USB, and USHFRCODIV2, its optional halving
  * (src/cmu/ushfrco.rs). */
module CmuUsHfrco {
  import opened CmuRegisters
  import opened CmuClocks
  import opened DeviceInformation
  import Consts

  /** The frequency marker each `enable_<n>mhz` gives its result. */
  function UsBandFrequency(band: UsBand): (f: nat)
    ensures f == if band == Band24MHz then 24000000 else 48000000
  {
    match band
    case Band24MHz => Consts.Mhz24
    case Band48MHz => Consts.Mhz48
  }

  /** UsHfRco::enable_<n>mhz: writes the band to USHFRCOCONF (so USHFRCODIV2DIS
    * returns to its reset value, dividing by two), the masked coarse and fine
    * factory tunings to USHFRCOCTRL and USHFRCOTUNE, starts the oscillator and
    * returns once USHFRCORDY reads set. */
  method EnableUsHfRco(cmu: Cmu, rom: Rom, self: Token, band: UsBand) returns (r: Token)
    requires Typed(self, UsHfRco) && cmu.Valid()
    modifies cmu`ushfrcoBand, cmu`ushfrcoDiv2Dis, cmu`ushfrcoTuning, cmu`ushfrcoFineTuning, cmu`status, cmu`trace
    ensures cmu.Valid()
    ensures r == Source(UsHfRco, U(UsBandFrequency(band)))
    ensures IsClock(r) && Frequency(r) == UsBandFrequency(band) as real
    ensures cmu.ushfrcoBand == band && !cmu.ushfrcoDiv2Dis
    ensures (cmu.ushfrcoTuning, cmu.ushfrcoFineTuning) == UsHfrcoCalib(rom, band)
    ensures cmu.status == old(cmu.status) + {UsHfrcoRdy}
    ensures cmu.trace == old(cmu.trace) + [Write(UsHfrcoConf)] + [Write(UsHfrcoCtrl)] + [Write(UsHfrcoTune)]
      + [Write(OscEnCmd(Enable(UsHfrco)))] + [Poll(Status(UsHfrcoRdy), true)]
  {
    var (coarse, fine) := UsHfrcoCalib(rom, band);
    cmu.WriteUsHfrcoConf(band);
    cmu.WriteUsHfrcoCtrl(coarse);
    cmu.WriteUsHfrcoTune(fine);
    cmu.StartOscillator(UsHfrco);
    r := Source(UsHfRco, U(UsBandFrequency(band)));
  }

  /** UsHfRco::disable: USHFRCODIS. There is no `_disable`, so no destructor. */
  method DisableUsHfRco(cmu: Cmu, self: Token) returns (r: Token)
    requires Typed(self, UsHfRco) && cmu.Valid()
    modifies cmu`status, cmu`trace
    ensures cmu.Valid()
    ensures r == Source(UsHfRco, Off) && !IsClock(r)
    ensures cmu.status == old(cmu.status) - {UsHfrcoRdy}
    ensures cmu.trace == old(cmu.trace) + [Write(OscEnCmd(Disable(UsHfrco)))]
  {
    cmu.WriteOscEnCmd(Disable(UsHfrco));
    r := Source(UsHfRco, Off);
  }

  /** UsHfRcoDiv::enable_div1: only from a USHFRCO at 24 MHz; sets
    * USHFRCODIV2DIS, so the clock runs undivided at 24 MHz. */
  method EnableDiv1(cmu: Cmu, self: Token, ushfrco: Token) returns (r: Token)
    requires Typed(self, UsHfRcoDiv) && cmu.Valid()
    requires ushfrco == Source(UsHfRco, U(Consts.Mhz24))
    modifies cmu`ushfrcoDiv2Dis, cmu`trace
    ensures cmu.Valid()
    ensures r == SwitchDivide(UsHfRcoDiv, Borrowed(ushfrco), U(1)) && WellWired(r)
    ensures IsClock(r) && Frequency(r) == 24000000.0
    ensures cmu.ushfrcoDiv2Dis
    ensures cmu.trace == old(cmu.trace) + [Write(UsHfrcoConf)]
  {
    cmu.ModifyUsHfrcoDiv2Dis(true);
    r := SwitchDivide(UsHfRcoDiv, Borrowed(ushfrco), U(1));
  }

  /** UsHfRcoDiv::enable_div2: from any running USHFRCO; clears USHFRCODIV2DIS,
    * so the clock runs at half the oscillator's frequency. */
  method EnableDiv2(cmu: Cmu, self: Token, ushfrco: Token) returns (r: Token)
    requires Typed(self, UsHfRcoDiv) && cmu.Valid()
    requires Typed(ushfrco, UsHfRco) && IsClock(ushfrco)
    modifies cmu`ushfrcoDiv2Dis, cmu`trace
    ensures cmu.Valid()
    ensures r == SwitchDivide(UsHfRcoDiv, Borrowed(ushfrco), U(2)) && WellWired(r)
    ensures IsClock(r) && Frequency(r) == Frequency(ushfrco) / 2.0
    ensures !cmu.ushfrcoDiv2Dis
    ensures cmu.trace == old(cmu.trace) + [Write(UsHfrcoConf)]
  {
    cmu.ModifyUsHfrcoDiv2Dis(false);
    r := SwitchDivide(UsHfRcoDiv, Borrowed(ushfrco), U(2));
  }

  /** UsHfRcoDiv::disable: no register access at all; it only gives up the
    * borrow of USHFRCO. */
  function DisableUsHfRcoDiv(self: Token): (r: Token)
    requires Typed(self, UsHfRcoDiv)
    ensures Typed(r, UsHfRcoDiv) && AllMarkers(r, Off) && !IsClock(r)
  {
    SwitchDivide(UsHfRcoDiv, NoSource(Off), Off)
  }
}

/** HFRCO and AUXHFRCO, the two high-frequency RC oscillators (src/cmu/hfrco.rs). */
module CmuHfrco {
  import opened CmuRegisters
  import opened CmuClocks
  import opened DeviceInformation
  import Consts

  /** The number of megahertz a band is named after. */
  function BandMegahertz(band: RcBand): (m: nat)
    ensures m in {1, 7, 11, 14, 21}
    ensures band == Band1MHz <==> m == 1
  {
    match band
    case Band1MHz => 1
    case Band7MHz => 7
    case Band11MHz => 11
    case Band14MHz => 14
    case Band21MHz => 21
  }

  /** The frequency marker each `enable_<n>mhz` gives its result. */
  function BandFrequency(band: RcBand): (f: nat)
    ensures f == BandMegahertz(band) * 1000000
  {
    match band
    case Band1MHz => Consts.Mhz1
    case Band7MHz => Consts.Mhz7
    case Band11MHz => Consts.Mhz11
    case Band14MHz => Consts.Mhz14
    case Band21MHz => Consts.Mhz21
  }

  /** HfRco::enable_<n>mhz: programs band and factory tuning with one write to
    * HFRCOCTRL, starts the oscillator, and returns once HFRCORDY reads set. */
  method EnableHfRco(cmu: Cmu, rom: Rom, self: Token, band: RcBand) returns (r: Token)
    requires Typed(self, HfRco) && cmu.Valid()
    modifies cmu`hfrcoBand, cmu`hfrcoTuning, cmu`status, cmu`trace
    ensures cmu.Valid()
    ensures r == Source(HfRco, U(BandFrequency(band)))
    ensures IsClock(r) && Frequency(r) == (BandMegahertz(band) * 1000000) as real
    ensures cmu.hfrcoBand == band && cmu.hfrcoTuning == HfrcoCalib(rom, band)
    ensures cmu.status == old(cmu.status) + {HfrcoRdy}
    ensures cmu.trace == old(cmu.trace) + [Write(HfrcoCtrl)] + [Write(OscEnCmd(Enable(Hfrco)))]
      + [Poll(Status(HfrcoRdy), true)]
  {
    cmu.WriteHfrcoCtrl(band, HfrcoCalib(rom, band));
    cmu.StartOscillator(Hfrco);
    r := Source(HfRco, U(BandFrequency(band)));
  }

  /** HfRco::_disable, which its Drop runs: HFRCODIS. */
  method DropHfRco(cmu: Cmu)
    requires cmu.Valid()
    modifies cmu`status, cmu`trace
    ensures cmu.Valid()
    ensures cmu.status == old(cmu.status) - {HfrcoRdy}
    ensures cmu.trace == old(cmu.trace) + DisableEvents(HfRco)
  {
    cmu.WriteOscEnCmd(Disable(Hfrco));
  }

  /** HfRco::disable: `_disable`, then the token is off. */
  method DisableHfRco(cmu: Cmu, self: Token) returns (r: Token)
    requires Typed(self, HfRco) && cmu.Valid()
    modifies cmu`status, cmu`trace
    ensures cmu.Valid()
    ensures r == Source(HfRco, Off) && !IsClock(r)
    ensures cmu.status == old(cmu.status) - {HfrcoRdy}
    ensures cmu.trace == old(cmu.trace) + DisableEvents(HfRco)
  {
    DropHfRco(cmu);
    r := Source(HfRco, Off);
  }

  /** AuxHfRco::enable_<n>mhz: as for HFRCO, on AUXHFRCOCTRL and AUXHFRCORDY. */
  method EnableAuxHfRco(cmu: Cmu, rom: Rom, self: Token, band: RcBand) returns (r: Token)
    requires Typed(self, AuxHfRco) && cmu.Valid()
    modifies cmu`auxhfrcoBand, cmu`auxhfrcoTuning, cmu`status, cmu`trace
    ensures cmu.Valid()
    ensures r == Source(AuxHfRco, U(BandFrequency(band)))
    ensures IsClock(r) && Frequency(r) == (BandMegahertz(band) * 1000000) as real
    ensures cmu.auxhfrcoBand == band && cmu.auxhfrcoTuning == AuxHfrcoCalib(rom, band)
    ensures cmu.status == old(cmu.status) + {AuxHfrcoRdy}
    ensures cmu.trace == old(cmu.trace) + [Write(AuxHfrcoCtrl)] + [Write(OscEnCmd(Enable(AuxHfrco)))]
      + [Poll(Status(AuxHfrcoRdy), true)]
  {
    cmu.WriteAuxHfrcoCtrl(band, AuxHfrcoCalib(rom, band));
    cmu.StartOscillator(AuxHfrco);
    r := Source(AuxHfRco, U(BandFrequency(band)));
  }

  /** AuxHfRco::_disable, which its Drop runs: AUXHFRCODIS. */
  method DropAuxHfRco(cmu: Cmu)
    requires cmu.Valid()
    modifies cmu`status, cmu`trace
    ensures cmu.Valid()
    ensures cmu.status == old(cmu.status) - {AuxHfrcoRdy}
    ensures cmu.trace == old(cmu.trace) + DisableEvents(AuxHfRco)
  {
    cmu.WriteOscEnCmd(Disable(AuxHfrco));
  }

  /** AuxHfRco::disable. */
  method DisableAuxHfRco(cmu: Cmu, self: Token) returns (r: Token)
    requires Typed(self, AuxHfRco) && cmu.Valid()
    modifies cmu`status, cmu`trace
    ensures cmu.Valid()
    ensures r == Source(AuxHfRco, Off) && !IsClock(r)
    ensures cmu.status == old(cmu.status) - {AuxHfrcoRdy}
    ensures cmu.trace == old(cmu.trace) + DisableEvents(AuxHfRco)
  {
    DropAuxHfRco(cmu);
    r := Source(AuxHfRco, Off);
  }
}

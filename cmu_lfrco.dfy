/** LFRCO and ULFRCO, the low-frequency RC oscillators (src/cmu/lfrco.rs).
  * ULFRCO has no operation: it always runs at 1 kHz. Neither declares
  * `_disable`. */
module CmuLfrco {
  import opened CmuRegisters
  import opened CmuClocks
  import Consts

  /** LfRco::enable_32768hz: starts the oscillator and returns once LFRCORDY
    * reads set. */
  method EnableLfRco(cmu: Cmu, self: Token) returns (r: Token)
    requires Typed(self, LfRco) && cmu.Valid()
    modifies cmu`status, cmu`trace
    ensures cmu.Valid()
    ensures r == Source(LfRco, U(Consts.Hz32768))
    ensures IsClock(r) && Frequency(r) == 32768.0
    ensures cmu.status == old(cmu.status) + {LfrcoRdy}
    ensures cmu.trace == old(cmu.trace) + [Write(OscEnCmd(Enable(Lfrco)))] + [Poll(Status(LfrcoRdy), true)]
  {
    cmu.StartOscillator(Lfrco);
    r := Source(LfRco, U(Consts.Hz32768));
  }

  /** LfRco::disable: LFRCODIS. */
  method DisableLfRco(cmu: Cmu, self: Token) returns (r: Token)
    requires Typed(self, LfRco) && cmu.Valid()
    modifies cmu`status, cmu`trace
    ensures cmu.Valid()
    ensures r == Source(LfRco, Off) && !IsClock(r)
    ensures cmu.status == old(cmu.status) - {LfrcoRdy}
    ensures cmu.trace == old(cmu.trace) + [Write(OscEnCmd(Disable(Lfrco)))]
  {
    cmu.WriteOscEnCmd(Disable(Lfrco));
    r := Source(LfRco, Off);
  }
}

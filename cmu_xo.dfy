/** HFXO and LFXO, the crystal oscillators (src/cmu/xo.rs). The driver can
  * only turn them off. */
module CmuXo {
  import opened CmuRegisters
  import opened CmuClocks

  /** HfXo::_disable, which its Drop runs: HFXODIS. */
  method DropHfXo(cmu: Cmu)
    requires cmu.Valid()
    modifies cmu`status, cmu`trace
    ensures cmu.Valid()
    ensures cmu.status == old(cmu.status) - {HfxoRdy}
    ensures cmu.trace == old(cmu.trace) + DisableEvents(HfXo)
  {
    cmu.WriteOscEnCmd(Disable(Hfxo));
  }

  /** HfXo::disable. */
  method DisableHfXo(cmu: Cmu, self: Token) returns (r: Token)
    requires Typed(self, HfXo) && cmu.Valid()
    modifies cmu`status, cmu`trace
    ensures cmu.Valid()
    ensures r == Source(HfXo, Off) && !IsClock(r)
    ensures cmu.status == old(cmu.status) - {HfxoRdy}
    ensures cmu.trace == old(cmu.trace) + DisableEvents(HfXo)
  {
    DropHfXo(cmu);
    r := Source(HfXo, Off);
  }

  /** LfXo::_disable, which its Drop runs: LFXODIS. */
  method DropLfXo(cmu: Cmu)
    requires cmu.Valid()
    modifies cmu`status, cmu`trace
    ensures cmu.Valid()
    ensures cmu.status == old(cmu.status) - {LfxoRdy}
    ensures cmu.trace == old(cmu.trace) + DisableEvents(LfXo)
  {
    cmu.WriteOscEnCmd(Disable(Lfxo));
  }

  /** LfXo::disable. */
  method DisableLfXo(cmu: Cmu, self: Token) returns (r: Token)
    requires Typed(self, LfXo) && cmu.Valid()
    modifies cmu`status, cmu`trace
    ensures cmu.Valid()
    ensures r == Source(LfXo, Off) && !IsClock(r)
    ensures cmu.status == old(cmu.status) - {LfxoRdy}
    ensures cmu.trace == old(cmu.trace) + DisableEvents(LfXo)
  {
    DropLfXo(cmu);
    r := Source(LfXo, Off);
  }
}

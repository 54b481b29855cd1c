/** The factory calibration values the driver reads from the device-information
  * page (src/device_information.rs). The page itself is a parameter: `rom(a)` is
  * the byte stored at address `a`. */
module DeviceInformation {
  import opened CmuRegisters

  /** Read-only memory, byte by byte. */
  type Rom = nat -> bv8

  /** HFRCO_CALIB_BAND_<n>. */
  function HfrcoCalibAddress(band: RcBand): (a: nat)
    ensures 0x0fe081dc <= a <= 0x0fe081e0
  {
    match band
    case Band1MHz => 0x0fe081dc
    case Band7MHz => 0x0fe081dd
    case Band11MHz => 0x0fe081de
    case Band14MHz => 0x0fe081df
    case Band21MHz => 0x0fe081e0
  }

  /** AUXHFRCO_CALIB_BAND_<n>. */
  function AuxHfrcoCalibAddress(band: RcBand): (a: nat)
    ensures 0x0fe081d4 <= a <= 0x0fe081d8
  {
    match band
    case Band1MHz => 0x0fe081d4
    case Band7MHz => 0x0fe081d5
    case Band11MHz => 0x0fe081d6
    case Band14MHz => 0x0fe081d7
    case Band21MHz => 0x0fe081d8
  }

  /** USHFRCO_COARSECAL_BAND_<n>. */
  function UsHfrcoCoarseAddress(band: UsBand): (a: nat)
    ensures a == 0x0fe081cc + (if band == Band24MHz then 0 else 2)
  {
    match band
    case Band24MHz => 0x0fe081cc
    case Band48MHz => 0x0fe081ce
  }

  /** USHFRCO_FINECAL_BAND_<n>. */
  function UsHfrcoFineAddress(band: UsBand): (a: nat)
    ensures a == UsHfrcoCoarseAddress(band) + 1
  {
    match band
    case Band24MHz => 0x0fe081cd
    case Band48MHz => 0x0fe081cf
  }

  /** Every calibration value has an address of its own, inside the calibration
    * area of the page. */
  lemma {:induction false} AddressesDistinct(b: RcBand, c: RcBand, u: UsBand, v: UsBand)
    ensures HfrcoCalibAddress(b) == HfrcoCalibAddress(c) ==> b == c
    ensures AuxHfrcoCalibAddress(b) == AuxHfrcoCalibAddress(c) ==> b == c
    ensures HfrcoCalibAddress(b) != AuxHfrcoCalibAddress(c)
    ensures UsHfrcoCoarseAddress(u) != UsHfrcoFineAddress(v)
    ensures UsHfrcoCoarseAddress(u) == UsHfrcoCoarseAddress(v) ==> u == v
    ensures UsHfrcoFineAddress(u) == UsHfrcoFineAddress(v) ==> u == v
    ensures UsHfrcoFineAddress(u) < AuxHfrcoCalibAddress(b) < HfrcoCalibAddress(c)
    ensures 0x0fe081cc <= UsHfrcoCoarseAddress(u) && HfrcoCalibAddress(c) <= 0x0fe081e0
  {
  }

  /** get_hfrco_calib_band_<n>: the byte as stored, unmasked. */
  function HfrcoCalib(rom: Rom, band: RcBand): (r: bv8)
    ensures r == rom(HfrcoCalibAddress(band))
  {
    rom(HfrcoCalibAddress(band))
  }

  /** get_auxhfrco_calib_band_<n>: the byte as stored, unmasked. */
  function AuxHfrcoCalib(rom: Rom, band: RcBand): (r: bv8)
    ensures r == rom(AuxHfrcoCalibAddress(band))
  {
    rom(AuxHfrcoCalibAddress(band))
  }

  /** get_ushfrco_calib_band_<n>: the coarse value fits the 7-bit TUNING field
    * and the fine value the 6-bit FINETUNING field; each is the stored byte with
    * exactly its upper bits dropped. */
  function UsHfrcoCalib(rom: Rom, band: UsBand): (r: (bv8, bv8))
    ensures r.0 < 0x80 && r.0 | (rom(UsHfrcoCoarseAddress(band)) & 0x80) == rom(UsHfrcoCoarseAddress(band))
    ensures r.1 < 0x40 && r.1 | (rom(UsHfrcoFineAddress(band)) & 0xc0) == rom(UsHfrcoFineAddress(band))
  {
    (rom(UsHfrcoCoarseAddress(band)) & 0x7f, rom(UsHfrcoFineAddress(band)) & 0x3f)
  }
}

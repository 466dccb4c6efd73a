/**
 * The Transparent constructor of `src/mods/transparent.rs`: a cell with no codes, which lets
 * the layer below show through. Its key has no handlers of its own.
 */
module TransparentKey {
  import opened Types
  import opened KeyCodes
  import opened StateTypes
  import opened KeyRecord

  /** `tptnew`: all four slots empty, everything at rest. */
  function New(): (d: KeyData)
    ensures d.keycode == NoCodes && d.previnfo == NoFlags && d.stor == ZeroBytes
    ensures d.state == Off && d.prevstate == Off && d.cycles == 0 && d.cyclesOff == 0 && !d.rawState
    ensures d.typ == Transparent && TypeName(d.typ) == "Transparent"
  {
    Released(NoCodes, ZeroBytes, "", Transparent)
  }
}

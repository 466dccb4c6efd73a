/**
 * The RGB behaviour of `src/mods/rgb_key.rs`: a key that sets the LED colour kept in
 * `stor[0..3]` each time it is scanned in Tap.
 */
module RgbKey {
  import opened Types
  import opened KeyCodes
  import opened StateTypes
  import opened Events
  import opened KeyRecord

  /** `rknew`: the colour in `stor[0..3]`, two placeholder codes `EEEEEEEE`. */
  function New(r: u8, g: u8, b: u8): (d: KeyData)
    ensures d.stor == [r, g, b, 0, 0, 0]
    ensures d.keycode == [Some(EEEEEEEE), Some(EEEEEEEE), None, None] && d.typ == Rgb
    ensures d.state == Off && d.prevstate == Off && d.cycles == 0 && d.cyclesOff == 0 && !d.rawState
    ensures d.previnfo == NoFlags
  {
    Released([Some(EEEEEEEE), Some(EEEEEEEE), None, None], [r, g, b, 0, 0, 0], "", Rgb)
  }

  /** The codes the Tap, Hold and Off handlers return: the second code alone. */
  function Second(d: KeyData): Codes
  {
    if PairShaped(d.keycode) then [d.keycode[1], None, None, None] else NoCodes
  }

  /** `rktap`: set the stored colour, on every call. */
  function OnTap(d: KeyData): (o: Outcome)
    ensures o.key == d && o.codes == Second(d)
    ensures o.events == if PairShaped(d.keycode) then [RgbSet(d.stor[0], d.stor[1], d.stor[2])] else []
  {
    if PairShaped(d.keycode) then Outcome(d, Second(d), [RgbSet(d.stor[0], d.stor[1], d.stor[2])])
    else Outcome(d, NoCodes, [])
  }

  /** `rkhold`: no event. */
  function OnHold(d: KeyData): (o: Outcome)
    ensures o.key == d && o.events == [] && o.codes == Second(d)
  {
    Outcome(d, Second(d), [])
  }

  /** `rkidle`: nothing. */
  function OnIdle(d: KeyData): (o: Outcome)
    ensures o.key == d && o.events == [] && o.codes == NoCodes
  {
    Outcome(d, NoCodes, [])
  }

  /** `rkoff`: no event. */
  function OnOff(d: KeyData): (o: Outcome)
    ensures o.key == d && o.events == [] && o.codes == Second(d)
  {
    Outcome(d, Second(d), [])
  }

  /**
   * `get_keys`: the handler of the current state. The key is never changed, and it sets the stored colour
   * in Tap only, on every such call; Hold, Idle and Off emit nothing.
   */
  function GetKeys(d: KeyData): (o: Outcome)
    ensures o.key == d
    ensures o.events != [] <==> d.state == Tap && PairShaped(d.keycode)
    ensures o.events != [] ==> o.events == [RgbSet(d.stor[0], d.stor[1], d.stor[2])]
  {
    match d.state
    case Tap => OnTap(d)
    case Hold => OnHold(d)
    case Idle => OnIdle(d)
    case Off => OnOff(d)
  }
}

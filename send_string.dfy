/**
 * The SendString behaviour of `src/mods/sendstring.rs`: a key that types its text each time
 * it is scanned in Tap.
 */
module SendStringKey {
  import opened Types
  import opened KeyCodes
  import opened StateTypes
  import opened Events
  import opened KeyRecord

  /** `sstnew`: the text in `strng`, two placeholder codes `EEEEEEEE`. */
  function New(s: string): (d: KeyData)
    ensures d.strng == s
    ensures d.keycode == [Some(EEEEEEEE), Some(EEEEEEEE), None, None] && d.typ == SendStr
    ensures d.state == Off && d.prevstate == Off && d.cycles == 0 && d.cyclesOff == 0 && !d.rawState
    ensures d.previnfo == NoFlags && d.stor == ZeroBytes
  {
    Released([Some(EEEEEEEE), Some(EEEEEEEE), None, None], ZeroBytes, s, SendStr)
  }

  /** The codes the Tap, Hold and Off handlers return: the second code alone. */
  function Second(d: KeyData): Codes
  {
    if PairShaped(d.keycode) then [d.keycode[1], None, None, None] else NoCodes
  }

  /** `ssttap`: send the text, on every call. */
  function OnTap(d: KeyData): (o: Outcome)
    ensures o.key == d && o.codes == Second(d)
    ensures o.events == if PairShaped(d.keycode) then [SendString(d.strng)] else []
  {
    if PairShaped(d.keycode) then Outcome(d, Second(d), [SendString(d.strng)])
    else Outcome(d, NoCodes, [])
  }

  /** `ssthold`: no event. */
  function OnHold(d: KeyData): (o: Outcome)
    ensures o.key == d && o.events == [] && o.codes == Second(d)
  {
    Outcome(d, Second(d), [])
  }

  /** `sstidle`: nothing. */
  function OnIdle(d: KeyData): (o: Outcome)
    ensures o.key == d && o.events == [] && o.codes == NoCodes
  {
    Outcome(d, NoCodes, [])
  }

  /** `sstoff`: no event. */
  function OnOff(d: KeyData): (o: Outcome)
    ensures o.key == d && o.events == [] && o.codes == Second(d)
  {
    Outcome(d, Second(d), [])
  }

  /**
   * `get_keys`: the handler of the current state. The key is never changed, and it sends its text
   * in Tap only, on every such call; Hold, Idle and Off emit nothing.
   */
  function GetKeys(d: KeyData): (o: Outcome)
    ensures o.key == d
    ensures o.events != [] <==> d.state == Tap && PairShaped(d.keycode)
    ensures o.events != [] ==> o.events == [SendString(d.strng)]
  {
    match d.state
    case Tap => OnTap(d)
    case Hold => OnHold(d)
    case Idle => OnIdle(d)
    case Off => OnOff(d)
  }
}

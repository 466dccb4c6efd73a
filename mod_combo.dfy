/**
 * The ModCombo behaviour of `src/mods/mod_combo.rs`: one physical key that presses two codes
 * together (a modifier and a key) and releases both on the release edge.
 */
module ModComboKey {
  import opened Types
  import opened KeyCodes
  import opened StateTypes
  import opened Events
  import opened KeyRecord

  /** `mcnew`: the pair in slots 0 and 1, slots 2 and 3 empty, everything else at rest. */
  function New(kc1: KeyCode, kc2: KeyCode): (d: KeyData)
    ensures PairShaped(d.keycode) && d.keycode[0] == Some(kc1) && d.keycode[1] == Some(kc2)
    ensures d.state == Off && d.prevstate == Off && d.cycles == 0 && d.cyclesOff == 0 && !d.rawState
    ensures d.previnfo == NoFlags && d.stor == ZeroBytes && d.typ == ModCombo
  {
    Released([Some(kc1), Some(kc2), None, None], ZeroBytes, "", ModCombo)
  }

  /** `mctap`: press the second code, then the first, and return both; on every call. */
  function OnTap(d: KeyData): (o: Outcome)
    ensures o.key == d
    ensures !PairShaped(d.keycode) ==> o.codes == NoCodes && o.events == []
    ensures PairShaped(d.keycode) ==>
      && o.codes == d.keycode
      && o.events == [Press(d.keycode[1].value), Press(d.keycode[0].value)]
  {
    if !PairShaped(d.keycode) then Outcome(d, NoCodes, [])
    else Outcome(d, d.keycode, [Press(d.keycode[1].value), Press(d.keycode[0].value)])
  }

  /** `mchold`: return the pair, emit nothing. */
  function OnHold(d: KeyData): (o: Outcome)
    ensures o.key == d && o.events == []
    ensures o.codes == if PairShaped(d.keycode) then d.keycode else NoCodes
  {
    if !PairShaped(d.keycode) then Outcome(d, NoCodes, []) else Outcome(d, d.keycode, [])
  }

  /** `mcidle`: nothing. */
  function OnIdle(d: KeyData): (o: Outcome)
    ensures o.key == d && o.events == [] && o.codes == NoCodes
  {
    Outcome(d, NoCodes, [])
  }

  /**
   * `mcoff`: on the release edge (the previous state was not Off) release the first code,
   * then the second; afterwards emit nothing.
   */
  function OnOff(d: KeyData): (o: Outcome)
    ensures o.key == d
    ensures !PairShaped(d.keycode) ==> o.codes == NoCodes && o.events == []
    ensures PairShaped(d.keycode) ==>
      && o.codes == d.keycode
      && (o.events != [] <==> d.prevstate != Off)
      && (o.events != [] ==> o.events == [Release(d.keycode[0].value), Release(d.keycode[1].value)])
  {
    if !PairShaped(d.keycode) then Outcome(d, NoCodes, [])
    else if d.prevstate != Off then
      Outcome(d, d.keycode, [Release(d.keycode[0].value), Release(d.keycode[1].value)])
    else Outcome(d, d.keycode, [])
  }

  /**
   * `get_keys`: the handler of the current state. The key is never changed; a shaped pair is
   * pressed (second code first) on every Tap call and released once, on the release edge.
   */
  function GetKeys(d: KeyData): (o: Outcome)
    ensures o.key == d
    ensures o.events != [] ==> PairShaped(d.keycode) && (d.state == Tap || d.state == Off)
    ensures PairShaped(d.keycode) && d.state == Tap ==>
      o.events == [Press(d.keycode[1].value), Press(d.keycode[0].value)]
    ensures PairShaped(d.keycode) && d.state == Off ==>
      (o.events != [] <==> d.prevstate != Off)
      && (o.events != [] ==> o.events == [Release(d.keycode[0].value), Release(d.keycode[1].value)])
  {
    match d.state
    case Tap => OnTap(d)
    case Hold => OnHold(d)
    case Idle => OnIdle(d)
    case Off => OnOff(d)
  }
}

/**
 * The LayerHold behaviour of `src/mods/layer_hold.rs`: while the key is down the keymap
 * shows layer 1, and it returns to layer 0 on release. `previnfo[0]` says that layer 1 is
 * on because of this key.
 */
module LayerHoldKey {
  import opened Types
  import opened Text
  import opened KeyCodes
  import opened StateTypes
  import opened Events
  import opened KeyRecord

  /**
   * `lyhnew`: two comma-separated, trimmed numbers parsed as `u8` into `stor[0]` and
   * `stor[1]`; no key codes. Any other number of pieces, or a piece that does not parse,
   * panics (`heapless::Vec` overflow, an index out of bounds, `unwrap` of an error): `None`.
   */
  function New(s: string): (r: Option<KeyData>)
    ensures r.Some? <==>
      Count(s, ',') == 1 && ParseU8(Trim(Split(s, ',')[0])).Some?
      && ParseU8(Trim(Split(s, ',')[1])).Some?
    ensures r.Some? ==>
      && r.value.keycode == NoCodes && r.value.typ == LayerHold
      && r.value.stor == [ParseU8(Trim(Split(s, ',')[0])).value, ParseU8(Trim(Split(s, ',')[1])).value, 0, 0, 0, 0]
      && r.value.state == Off && r.value.prevstate == Off && r.value.previnfo == NoFlags
  {
    var p := Split(s, ',');
    if |p| != 2 then None
    else
      match (ParseU8(Trim(p[0])), ParseU8(Trim(p[1])))
      case (Some(a), Some(b)) => Some(Released(NoCodes, [a, b, 0, 0, 0, 0], "", LayerHold))
      case _ => None
  }

  /** `lyhtap`: unless the key was already in Tap, switch to layer 1 and remember it. */
  function OnTap(d: KeyData): (o: Outcome)
    ensures ScratchOnly(d, o.key) && o.key.stor == d.stor && o.codes == NoCodes
    ensures d.prevstate != Tap ==> o.events == [SetLayer(1)] && o.key.previnfo == d.previnfo[0 := true]
    ensures d.prevstate == Tap ==> o.events == [] && o.key == d
  {
    if d.prevstate != Tap then
      Outcome(d.(previnfo := d.previnfo[0 := true]), NoCodes, [SetLayer(1)])
    else
      Outcome(d, NoCodes, [])
  }

  /** `lyhhold`: nothing. */
  function OnHold(d: KeyData): (o: Outcome)
    ensures o.key == d && o.events == [] && o.codes == NoCodes
  {
    Outcome(d, NoCodes, [])
  }

  /** `lyhidle`: nothing. */
  function OnIdle(d: KeyData): (o: Outcome)
    ensures o.key == d && o.events == [] && o.codes == NoCodes
  {
    Outcome(d, NoCodes, [])
  }

  /** `lyhoff`: if this key switched the layer on, switch back to layer 0 and forget it. */
  function OnOff(d: KeyData): (o: Outcome)
    ensures ScratchOnly(d, o.key) && o.key.stor == d.stor && o.codes == NoCodes
    ensures !o.key.previnfo[0] && o.key.previnfo[1..] == d.previnfo[1..]
    ensures o.events == if d.previnfo[0] then [SetLayer(0)] else []
  {
    if d.previnfo[0] then
      Outcome(d.(previnfo := d.previnfo[0 := false]), NoCodes, [SetLayer(0)])
    else
      Outcome(d, NoCodes, [])
  }

  /**
   * `get_keys`: the handler of the current state. Layer 1 is switched on when the key enters
   * Tap and back to 0 on release if this key switched it on; nothing else is emitted.
   */
  function GetKeys(d: KeyData): (o: Outcome)
    ensures ScratchOnly(d, o.key) && o.key.stor == d.stor && o.codes == NoCodes
    ensures o.events == [] || o.events == [SetLayer(1)] || o.events == [SetLayer(0)]
    ensures o.events == [SetLayer(1)] <==> d.state == Tap && d.prevstate != Tap
    ensures o.events == [SetLayer(0)] <==> d.state == Off && d.previnfo[0]
  {
    match d.state
    case Tap => OnTap(d)
    case Hold => OnHold(d)
    case Idle => OnIdle(d)
    case Off => OnOff(d)
  }
}

/**
 * The Default behaviour of `src/key.rs` (`impl Default for Key`): a plain key. Tap and hold
 * announce the primary code on every call; release announces it once, on the edge.
 */
module DefaultKey {
  import opened Types
  import opened KeyCodes
  import opened StateTypes
  import opened Events
  import opened KeyRecord

  /** `Default::new`: the code pair `[KC1, KC2 or ________]`, everything else at rest. */
  function New(kc1: KeyCode, kc2: Option<KeyCode>): (d: KeyData)
    ensures d.state == Off && d.prevstate == Off && d.cycles == 0 && d.cyclesOff == 0 && !d.rawState
    ensures d.previnfo == NoFlags && d.typ == Default
    ensures d.keycode[0] == Some(kc1)
    ensures d.keycode[1] == Some(if kc2.Some? then kc2.value else Emp)
  {
    Released([Some(kc1), Some(match kc2 case Some(k) => k case None => Emp), None, None], ZeroBytes, "", Default)
  }

  /** The push event for `k`: "mpush" for a modifier, "ipush" otherwise. */
  function Push(k: KeyCode): (e: Event)
    ensures (e.MPush? || e.IPush?) && e.code == k
    ensures e.MPush? <==> IsModifier(k)
  {
    if IsModifier(k) then MPush(k) else IPush(k)
  }

  /** The pull event for `k`: "mpull" for a modifier, "ipull" otherwise. */
  function Pull(k: KeyCode): (e: Event)
    ensures (e.MPull? || e.IPull?) && e.code == k
    ensures e.MPull? <==> IsModifier(k)
  {
    if IsModifier(k) then MPull(k) else IPull(k)
  }

  /**
   * The events of `tap` and `hold`: one push of the primary code, whose kind says whether it
   * is a modifier. (A unified record whose first slot is empty emits nothing.)
   */
  function Announce(d: KeyData): (ev: seq<Event>)
    ensures d.keycode[0].None? ==> ev == []
    ensures d.keycode[0].Some? ==>
      |ev| == 1 && (ev[0].MPush? || ev[0].IPush?) && ev[0].code == d.keycode[0].value
      && (ev[0].MPush? <==> IsModifier(d.keycode[0].value))
  {
    match d.keycode[0]
    case Some(k) => [Push(k)]
    case None => []
  }

  /** `tap`: push the primary code, change nothing, return the codes. */
  function OnTap(d: KeyData): (o: Outcome)
    ensures o.key == d && o.codes == d.keycode && o.events == Announce(d)
  {
    Outcome(d, d.keycode, Announce(d))
  }

  /** `hold`: the same as `tap`, on every call while held. */
  function OnHold(d: KeyData): (o: Outcome)
    ensures o.key == d && o.codes == d.keycode && o.events == Announce(d)
  {
    Outcome(d, d.keycode, Announce(d))
  }

  /** `idle`: emits nothing and returns two empty codes. */
  function OnIdle(d: KeyData): (o: Outcome)
    ensures o.key == d && o.events == []
    ensures o.codes[0] == Some(Emp) && o.codes[1] == Some(Emp)
  {
    Outcome(d, [Some(Emp), Some(Emp), None, None], [])
  }

  /** `off`: pull the primary code only when the state has just changed (the release edge). */
  function OnOff(d: KeyData): (o: Outcome)
    ensures o.key == d && o.codes == d.keycode
    ensures |o.events| <= 1
    ensures o.events != [] <==> d.state != d.prevstate && d.keycode[0].Some?
    ensures o.events != [] ==>
      (o.events[0].MPull? || o.events[0].IPull?) && o.events[0].code == d.keycode[0].value
      && (o.events[0].MPull? <==> IsModifier(d.keycode[0].value))
  {
    if d.state != d.prevstate && d.keycode[0].Some? then
      Outcome(d, d.keycode, [Pull(d.keycode[0].value)])
    else
      Outcome(d, d.keycode, [])
  }

  /**
   * `get_keys`: the handler of the current state. No Default handler changes the key; it
   * pushes while the key is down and pulls at most once, on the release edge.
   */
  function GetKeys(d: KeyData): (o: Outcome)
    ensures o.key == d
    ensures d.state == Tap || d.state == Hold ==> o.codes == d.keycode && o.events == Announce(d)
    ensures d.state == Idle ==> o.events == []
    ensures d.state == Off ==> |o.events| <= 1 && (o.events != [] <==> d.state != d.prevstate && d.keycode[0].Some?)
  {
    match d.state
    case Tap => OnTap(d)
    case Hold => OnHold(d)
    case Idle => OnIdle(d)
    case Off => OnOff(d)
  }
}
